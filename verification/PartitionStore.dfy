/**
 * Streaming rewrite of one date partition under the shrink guard (src/data/intraday_store.py). The stored
 * file is read in bounded batches; what readers see afterwards is a plain update of the map from symbol to rows.
 */
module PartitionStore {
  import opened Common
  import opened BarRows

  /** The certification fields of a coverage entry; `evidence` is the number of raw references. */
  datatype Entry = Entry(session: string, venue: string, status: Status, evidence: nat, reason: string)

  type Coverage = map<Symbol, Entry>

  datatype WriteError = InvalidRow | Uncovered | SessionMismatch | ContradictorySlot | ChangedUncertified | NotCertified

  const CONSOLIDATED_SESSION := "regular_consolidated"
  const CONSOLIDATED_REASON := "toss_consolidated_tape"
  const UNKNOWN_VENUE := "UNKNOWN"

  // ---- What a write means -----------------------------------------------------------------------------------

  /** The symbols whose rows a guarded replace takes from `incoming`. */
  function Accepted(before: seq<Row>, incoming: seq<Row>, replaced: set<Symbol>, allowed: set<Symbol>): set<Symbol> {
    set s | s in replaced && (|RowsOf(incoming, s)| >= |RowsOf(before, s)| || s in allowed)
  }

  function UpdatedRows(before: seq<Row>, incoming: seq<Row>, accepted: set<Symbol>, s: Symbol): seq<Row> {
    if s in accepted then RowsOf(incoming, s) else RowsOf(before, s)
  }

  /** Accepted symbols take their incoming rows, every other symbol keeps its rows in their order. */
  ghost predicate IsUpdate(before: seq<Row>, incoming: seq<Row>, accepted: set<Symbol>, now: seq<Row>) {
    forall s :: RowsOf(now, s) == UpdatedRows(before, incoming, accepted, s)
  }

  lemma AcceptedNeverShrinks(before: seq<Row>, incoming: seq<Row>, replaced: set<Symbol>, allowed: set<Symbol>,
      now: seq<Row>, s: Symbol)
    requires IsUpdate(before, incoming, Accepted(before, incoming, replaced, allowed), now) && s !in allowed
    ensures |RowsOf(now, s)| >= |RowsOf(before, s)|
  {
    assert RowsOf(now, s) == UpdatedRows(before, incoming, Accepted(before, incoming, replaced, allowed), s);
  }

  /** One guarded replace of a run: what came in, which symbols it was to replace, which of them may shrink. */
  datatype Replace = Replace(incoming: seq<Row>, replaced: set<Symbol>, allowed: set<Symbol>)

  ghost predicate IsReplaceRun(files: seq<seq<Row>>, run: seq<Replace>) {
    && |files| == |run| + 1
    && forall k | 0 <= k < |run| ::
         IsUpdate(files[k], run[k].incoming, Accepted(files[k], run[k].incoming, run[k].replaced, run[k].allowed),
             files[k + 1])
  }

  /** Over any run of replaces, a symbol nobody authorised to shrink never has fewer rows than at any earlier moment. */
  lemma {:induction false} NoSymbolEverLosesRows(files: seq<seq<Row>>, run: seq<Replace>, s: Symbol, i: nat, j: nat)
    requires IsReplaceRun(files, run) && i <= j <= |run|
    requires forall k | i <= k < j :: s !in run[k].allowed
    ensures |RowsOf(files[j], s)| >= |RowsOf(files[i], s)|
    decreases j
  {
    if i < j {
      NoSymbolEverLosesRows(files, run, s, i, j - 1);
      var r := run[j - 1];
      AcceptedNeverShrinks(files[j - 1], r.incoming, r.replaced, r.allowed, files[j], s);
    }
  }

  // ---- Certification -----------------------------------------------------------------------------------------

  predicate MayReplace(e: Entry, session: string) {
    && e.venue != UNKNOWN_VENUE
    && (if session == CONSOLIDATED_SESSION
        then e.status.NotApplicable? && e.reason == CONSOLIDATED_REASON
        else e.status.NoTrades? || e.status.Complete?)
  }

  predicate ProvesNoTrades(e: Entry, session: string) {
    e.status.NoTrades? && e.session == session && e.venue != UNKNOWN_VENUE && e.evidence > 0
  }

  function ProvenEmpty(coverage: Coverage, session: string): set<Symbol> {
    set s | s in coverage && ProvesNoTrades(coverage[s], session)
  }

  predicate IsHhmmss(t: int) {
    0 <= t <= 235959 && (t / 100) % 100 <= 59 && t % 100 <= 59
  }

  predicate IsValidRow(r: Row) {
    && IsHhmmss(r.ts) && r.volume >= 0
    && forall i | 0 <= i < |r.prices| :: r.prices[i] > 0.0
  }

  /** Why a frame cannot be written at all, in the order the checks are made. */
  function FrameError(frame: seq<Row>, session: string, coverage: Option<Coverage>, bars: bool): Option<WriteError> {
    if exists r | r in frame :: !IsValidRow(r) then Some(InvalidRow)
    else if coverage.Some? && !(Symbols(frame) <= coverage.value.Keys) then Some(Uncovered)
    else if coverage.Some? && exists s | s in Symbols(frame) :: coverage.value[s].session != session
    then Some(SessionMismatch)
    else if bars && Contradictory(frame) then Some(ContradictorySlot)
    else None
  }

  function Prepared(frame: seq<Row>, bars: bool): seq<Row> {
    if bars then Reconciled(frame) else frame
  }

  lemma PreparedSymbols(frame: seq<Row>, bars: bool)
    requires bars ==> !Contradictory(frame)
    ensures Symbols(Prepared(frame, bars)) == Symbols(frame)
  {
    if bars { ReconciledSorted(frame); }
  }

  class Partition {
    var file: Option<seq<Row>>

    constructor ()
      ensures file == None
    {
      file := None;
    }

    function Stored(): seq<Row>
      reads this
    {
      if file.Some? then file.value else []
    }

    /** Row counts of the given symbols, read batch by batch. */
    method StoredSymbolCounts(symbols: set<Symbol>, batchRows: nat) returns (counts: map<Symbol, nat>)
      requires batchRows > 0
      ensures counts.Keys == symbols
      ensures forall s | s in symbols :: counts[s] == |RowsOf(Stored(), s)|
    {
      counts := map s | s in symbols :: 0;
      var rows := Stored();
      var i := 0;
      while i < |rows|
        invariant 0 <= i <= |rows| && counts.Keys == symbols
        invariant forall s | s in symbols :: counts[s] == |RowsOf(rows[..i], s)|
      {
        var end := if i + batchRows < |rows| then i + batchRows else |rows|;
        var batch := rows[i..end];
        assert rows[..end] == rows[..i] + batch;
        forall s | s in symbols
          ensures |RowsOf(rows[..end], s)| == |RowsOf(rows[..i], s)| + |RowsOf(batch, s)|
        {
          RowsOfConcat(rows[..i], batch, s);
        }
        counts := map s | s in symbols :: counts[s] + |RowsOf(batch, s)|;
        i := end;
      }
      assert rows[..|rows|] == rows;
    }

    /** Symbols that would lose rows without permission keep their stored rows; their incoming rows are set aside. */
    method ApplyShrinkGuard(incoming: seq<Row>, replaced: set<Symbol>, batchRows: nat, allowed: set<Symbol>)
      returns (kept: seq<Row>, accepted: set<Symbol>)
      requires batchRows > 0
      ensures accepted == Accepted(Stored(), incoming, replaced, allowed)
      ensures kept == Without(incoming, replaced - accepted)
    {
      var counts := StoredSymbolCounts(replaced, batchRows);
      accepted := {};
      var rest := replaced;
      while rest != {}
        invariant rest <= replaced
        invariant accepted == Accepted(Stored(), incoming, replaced, allowed) - rest
        decreases rest
      {
        HasMember(rest);
        var s :| s in rest;
        if |RowsOf(incoming, s)| >= counts[s] || s in allowed {
          accepted := accepted + {s};
        }
        rest := rest - {s};
      }
      kept := Without(incoming, replaced - accepted);
    }

    /** The rewrite's reading pass: keep everything but the accepted symbols, and note which symbols were there. */
    method StageKeptRows(accepted: set<Symbol>, batchRows: nat) returns (staged: Option<seq<Row>>, seen: set<Symbol>)
      requires batchRows > 0
      ensures seen == Symbols(Stored())
      ensures Staged(staged) == Without(Stored(), accepted) && (staged.None? <==> Without(Stored(), accepted) == [])
    {
      staged, seen := None, {};
      var rows := Stored();
      var i := 0;
      while i < |rows|
        invariant 0 <= i <= |rows| && seen == Symbols(rows[..i])
        invariant Staged(staged) == Without(rows[..i], accepted)
        invariant staged.None? <==> Without(rows[..i], accepted) == []
      {
        var end := if i + batchRows < |rows| then i + batchRows else |rows|;
        var batch := rows[i..end];
        assert rows[..end] == rows[..i] + batch;
        WithoutConcat(rows[..i], batch, accepted);
        SymbolsConcat(rows[..i], batch);
        seen := seen + Symbols(batch);
        var keep := Without(batch, accepted);
        if keep != [] {
          staged := Some(Staged(staged) + keep);
        }
        i := end;
      }
      assert rows[..|rows|] == rows;
    }

    /** Rewrite the file batch by batch through a staged copy and return the number of rows it then holds. */
    method BoundedSymbolReplace(incoming: seq<Row>, replaced: set<Symbol>, batchRows: nat, allowed: set<Symbol>)
      returns (total: nat)
      requires batchRows > 0 && Symbols(incoming) <= replaced
      modifies this
      ensures IsUpdate(old(Stored()), incoming, Accepted(old(Stored()), incoming, replaced, allowed), Stored())
      ensures total == |Stored()|
    {
      var rows := Stored();
      var kept, accepted := ApplyShrinkGuard(incoming, replaced, batchRows, allowed);
      KeptIncoming(incoming, replaced, accepted);
      if accepted == {} {
        return |rows|;
      }
      var staged, seen := StageKeptRows(accepted, batchRows);
      if kept != [] {
        staged := Some(Staged(staged) + kept);
      }
      ghost var now := Without(rows, accepted) + kept;
      ReplacedRows(rows, incoming, replaced, accepted);
      if staged.None? {
        assert now == [];
        WithoutSymbols(rows, accepted);
        if file.Some? && seen != {} && seen <= accepted {
          file := None;
          return 0;
        }
        NoSymbolsNoRows(rows);
        return |rows|;
      }
      assert staged.value == now;
      file := staged;
      return |staged.value|;
    }

    /** `_require_certified`: the symbols the frame and the coverage together may replace. */
    method RequireCertified(symbols: seq<Symbol>, coverage: Coverage,
        session: string) returns (r: Result<set<Symbol>, WriteError>)
      requires forall s | s in symbols :: s in coverage
      ensures r.Ok? <==> forall s | s in symbols :: MayReplace(coverage[s], session)
      ensures r.Ok? ==> r.value == (set s | s in symbols) + ProvenEmpty(coverage, session)
      ensures r.Err? ==> r.error == NotCertified
    {
      var replaced: set<Symbol> := {};
      for i := 0 to |symbols|
        invariant replaced == set s | s in symbols[..i]
        invariant forall s | s in symbols[..i] :: MayReplace(coverage[s], session)
      {
        var s := symbols[i];
        assert s in symbols;
        if !MayReplace(coverage[s], session) {
          return Err(NotCertified);
        }
        replaced := replaced + {s};
        assert symbols[..i + 1] == symbols[..i] + [symbols[i]];
      }
      assert symbols[..|symbols|] == symbols;
      return Ok(replaced + ProvenEmpty(coverage, session));
    }

    /** An uncertified write may repeat a stored symbol only row for row. */
    predicate RepeatsStored(frame: seq<Row>)
      reads this
    {
      forall s | s in Symbols(frame) && RowsOf(Stored(), s) != [] ::
          multiset(RowsOf(frame, s)) == multiset(RowsOf(Stored(), s))
    }

    /** `write_intraday_partition` (bars) and `write_tick_partition` (not bars). */
    method Write(frame: seq<Row>, session: string, coverage: Option<Coverage>, bars: bool, batchRows: nat,
        allowed: set<Symbol>)
      returns (r: Result<nat, WriteError>)
      requires batchRows > 0
      modifies this
      ensures r.Err? ==> file == old(file)
      ensures r.Err? ==>
                r.error == if FrameError(frame, session, coverage, bars).Some?
                then FrameError(frame, session, coverage, bars).value
                                    else if coverage.None? then ChangedUncertified else NotCertified
      ensures r.Ok? ==> r.value == |Stored()|
      ensures r.Ok? <==> old(CanWrite(frame, session, coverage, bars))
      ensures r.Ok? ==> IsUpdate(old(Stored()), Prepared(frame, bars),
                                 Accepted(old(Stored()), Prepared(frame, bars), Replaceable(frame, session, coverage),
                                     allowed), Stored())
    {
      if frame == [] {
        NothingReplaced(Stored(), Prepared([], bars), allowed);
        if coverage.None? {
          return Ok(|Stored()|);
        }
        var empty := ProvenEmpty(coverage.value, session);
        if empty == {} {
          return Ok(|Stored()|);
        }
        var total := BoundedSymbolReplace([], empty, batchRows, allowed);
        return Ok(total);
      }
      var error := FrameError(frame, session, coverage, bars);
      if error.Some? {
        return Err(error.value);
      }
      var prepared := Prepared(frame, bars);
      PreparedSymbols(frame, bars);
      if coverage.None? {
        if file.Some? && !RepeatsStored(prepared) {
          return Err(ChangedUncertified);
        }
        var total := BoundedSymbolReplace(prepared, Symbols(frame), batchRows, allowed);
        return Ok(total);
      }
      var symbols := seq(|frame|, i requires 0 <= i < |frame| => frame[i].symbol);
      SymbolColumn(frame, symbols);
      var certified := RequireCertified(symbols, coverage.value, session);
      if certified.Err? {
        return Err(certified.error);
      }
      var total := BoundedSymbolReplace(prepared, certified.value, batchRows, allowed);
      return Ok(total);
    }

    /** `remove_intraday_symbols`: the one automated path that is allowed to lose rows, and only those of `symbols`. */
    method RemoveSymbols(symbols: set<Symbol>, batchRows: nat) returns (total: nat)
      requires batchRows > 0
      modifies this
      ensures forall s :: RowsOf(Stored(), s) == if s in symbols then [] else RowsOf(old(Stored()), s)
      ensures total == |Stored()|
    {
      if symbols == {} || file.None? {
        return |Stored()|;
      }
      ghost var before := Stored();
      total := BoundedSymbolReplace([], symbols, batchRows, symbols);
      assert forall s :: RowsOf(Stored(), s) == UpdatedRows(before, [], Accepted(before, [], symbols, symbols), s);
    }

    /** Exactly when a write is carried out. */
    predicate CanWrite(frame: seq<Row>, session: string, coverage: Option<Coverage>, bars: bool)
      reads this
    {
      frame == [] ||
      (&& FrameError(frame, session, coverage, bars).None?
       && (if coverage.None? then file.None? || RepeatsStored(Prepared(frame, bars))
           else forall s | s in Symbols(frame) :: MayReplace(coverage.value[s], session)))
    }
  }

  function Replaceable(frame: seq<Row>, session: string, coverage: Option<Coverage>): set<Symbol> {
    Symbols(frame) + (if coverage.Some? then ProvenEmpty(coverage.value, session) else {})
  }

  lemma KeptIncoming(incoming: seq<Row>, replaced: set<Symbol>, accepted: set<Symbol>)
    requires Symbols(incoming) <= replaced
    ensures accepted == {} ==> Without(incoming, replaced - accepted) == []
  {
    WithoutSymbols(incoming, replaced - accepted);
    NoSymbolsNoRows(Without(incoming, replaced - accepted));
  }

  function Staged(rows: Option<seq<Row>>): seq<Row> {
    if rows.Some? then rows.value else []
  }

  lemma SymbolsConcat(a: seq<Row>, b: seq<Row>)
    ensures Symbols(a + b) == Symbols(a) + Symbols(b)
  {
    assert forall r :: r in a + b <==> r in a || r in b;
  }

  lemma ReplacedRows(rows: seq<Row>, incoming: seq<Row>, replaced: set<Symbol>, accepted: set<Symbol>)
    requires Symbols(incoming) <= replaced && accepted <= replaced
    ensures IsUpdate(rows, incoming, accepted, Without(rows, accepted) + Without(incoming, replaced - accepted))
  {
    var kept := Without(incoming, replaced - accepted);
    forall s
      ensures RowsOf(Without(rows, accepted) + kept, s) == UpdatedRows(rows, incoming, accepted, s)
    {
      RowsOfConcat(Without(rows, accepted), kept, s);
      RowsOfWithout(rows, accepted, s);
      RowsOfWithout(incoming, replaced - accepted, s);
      RowsOfAbsent(incoming, s);
    }
  }

  lemma HasMember(symbols: set<Symbol>)
    requires symbols != {}
    ensures exists s: Symbol :: s in symbols
  {
    assert (forall s: Symbol :: s !in symbols) ==> symbols == {};
  }

  lemma NoSymbolsNoRows(rows: seq<Row>)
    ensures Symbols(rows) == {} <==> rows == []
  {
    assert rows != [] ==> rows[0].symbol in Symbols(rows);
  }

  lemma NothingReplaced(rows: seq<Row>, incoming: seq<Row>, allowed: set<Symbol>)
    ensures IsUpdate(rows, incoming, Accepted(rows, incoming, {}, allowed), rows)
  {
  }

  lemma SymbolColumn(frame: seq<Row>, symbols: seq<Symbol>)
    requires |symbols| == |frame| && forall i | 0 <= i < |frame| :: symbols[i] == frame[i].symbol
    ensures (set s | s in symbols) == Symbols(frame)
    ensures forall s | s in symbols :: s in Symbols(frame)
  {
    forall s
      ensures s in symbols <==> s in Symbols(frame)
    {
      if s in symbols { var i :| 0 <= i < |symbols| && symbols[i] == s; assert frame[i] in frame; }
      if s in Symbols(frame) {
        var r :| r in frame && r.symbol == s;
        var i :| 0 <= i < |frame| && frame[i] == r;
        assert symbols[i] == s;
      }
    }
  }
}
