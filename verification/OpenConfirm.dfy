/**
 * The opening confirmation (src/daily/auction_capture.py): passes over the symbols whose opening price has not printed
 * yet. Requests of one pass complete in any order; symbols of one dispatch list are distinct.
 */
module OpenConfirm {
  import opened Common
  import opened AuctionEntries

  /** One price poll: not dispatched before the confirmation ended, or answered; `valid` is a proper vendor reply. */
  datatype Poll = Expired | Polled(price: int, valid: bool, persisted: bool, framed: bool)

  type Polls = (nat, Symbol) -> Poll

  // ---- One symbol's own story ----------------------------------------------------------------------------------

  function Unresolved(s: Symbol, seen: Option<Ref>, empty: bool): Entry {
    Entry(s, Price, if empty then NoTrades else Partial, if seen.Some? then [seen.value] else [])
  }

  /** The price entry of a symbol polled from attempt `a` on, decided by its own replies alone. */
  function Fate(polls: Polls, passes: nat, s: Symbol, a: nat, seen: Option<Ref>, empty: bool): Entry
    decreases passes - a
  {
    if a >= passes then Unresolved(s, seen, empty)
    else
      match polls(a, s)
      case Expired => Unresolved(s, seen, empty)
      case Polled(price, valid, persisted, _) =>
        if !persisted then Entry(s, Price, Failed, [])
        else if price > 0 then Entry(s, Price, Complete, [PriceRef(s, a)])
        else Fate(polls, passes, s, a + 1, Some(PriceRef(s, a)), valid)
  }

  function FinalEntry(polls: Polls, passes: nat, s: Symbol): Entry {
    Fate(polls, passes, s, 0, None, false)
  }

  /** Every response of the symbol from attempt `a` on was stored with its frame. */
  predicate Kept(polls: Polls, passes: nat, s: Symbol, a: nat)
    decreases passes - a
  {
    a >= passes || polls(a, s).Expired?
    || (polls(a, s).persisted && polls(a, s).framed && (polls(a, s).price > 0 || Kept(polls, passes, s, a + 1)))
  }

  /** A stored, valid answer of the vendor that no opening trade had printed. */
  predicate IsEmptyAnswer(polls: Polls, s: Symbol, ref: Ref) {
    ref.PriceRef? && ref.symbol == s && polls(ref.attempt, s).Polled?
    && polls(ref.attempt, s).persisted && polls(ref.attempt, s).valid && polls(ref.attempt, s).price <= 0
  }

  /** A stored answer of the vendor with the opening price. */
  predicate IsPricedAnswer(polls: Polls, s: Symbol, ref: Ref) {
    ref.PriceRef? && ref.symbol == s && polls(ref.attempt, s).Polled?
    && polls(ref.attempt, s).persisted && polls(ref.attempt, s).price > 0
  }

  lemma {:induction false} FateHasEvidence(polls: Polls, passes: nat, s: Symbol, a: nat, seen: Option<Ref>, empty: bool)
    requires empty ==> seen.Some? && IsEmptyAnswer(polls, s, seen.value)
    ensures var e := Fate(polls, passes, s, a, seen, empty);
            && e.symbol == s && e.dataset == Price
            && (e.status.NoTrades? ==> |e.refs| == 1 && IsEmptyAnswer(polls, s, e.refs[0]))
            && (e.status.Complete? ==> |e.refs| == 1 && IsPricedAnswer(polls, s, e.refs[0]))
    decreases passes - a
  {
    if a < passes && polls(a, s).Polled? && polls(a, s).persisted && polls(a, s).price <= 0 {
      FateHasEvidence(polls, passes, s, a + 1, Some(PriceRef(s, a)), polls(a, s).valid);
    }
  }

  /** NO_TRADES is never a guess and COMPLETE always carries the printed price. */
  lemma EveryVerdictHasEvidence(polls: Polls, passes: nat, s: Symbol)
    ensures var e := FinalEntry(polls, passes, s);
            && (e.status.NoTrades? ==> |e.refs| == 1 && IsEmptyAnswer(polls, s, e.refs[0]))
            && (e.status.Complete? ==> |e.refs| == 1 && IsPricedAnswer(polls, s, e.refs[0]))
  {
    FateHasEvidence(polls, passes, s, 0, None, false);
  }

  function Positions(n: nat): (positions: set<nat>)
    ensures forall k :: k in positions <==> 0 <= k < n
  {
    if n == 0 then {} else Positions(n - 1) + {n - 1}
  }

  // ---- One pass ------------------------------------------------------------------------------------------------

  function SeenOf(lastSeen: map<Symbol, Ref>, s: Symbol): Option<Ref> {
    if s in lastSeen then Some(lastSeen[s]) else None
  }

  /** One poll of a pending symbol settles it with its final entry or leaves its story one attempt later. */
  predicate IsStep(polls: Polls, passes: nat, s: Symbol, a: nat, seen: Option<Ref>, empty: bool,
      nowSeen: Option<Ref>, nowEmpty: bool, settled: bool, e: Entry)
  {
    && e.symbol == s && e.dataset == Price
    && (settled <==> polls(a, s).Expired? || !polls(a, s).persisted || polls(a, s).price > 0)
    && if settled then e == Fate(polls, passes, s, a, seen, empty)
       else Fate(polls, passes, s, a, seen, empty) == Fate(polls, passes, s, a + 1, nowSeen, nowEmpty)
  }

  /** What the passes share: the last answer of each symbol, who had none yet, and what this pass settled or lost. */
  datatype Tracker = Tracker(seen: map<Symbol, Ref>, empty: set<Symbol>, settled: set<nat>, degraded: set<Symbol>)

  predicate StepAt(polls: Polls, passes: nat, s: Symbol, attempt: nat, k: nat, before: Tracker, now: Tracker, e: Entry)
  {
    IsStep(polls, passes, s, attempt, SeenOf(before.seen, s), s in before.empty,
           SeenOf(now.seen, s), s in now.empty, k in now.settled, e)
  }

  /** In the middle of a pass: the positions not in `rest` have made their step. */
  ghost predicate PassedSoFar(polls: Polls, passes: nat, pending: seq<Symbol>, attempt: nat, rest: set<nat>,
      slots: map<nat, Entry>, begun: Tracker, now: Tracker)
  {
    && rest <= Positions(|pending|) && now.settled !! rest && now.settled <= Positions(|pending|)
    && (forall k | 0 <= k < |pending| && k !in rest ::
          k in slots && StepAt(polls, passes, pending[k], attempt, k, begun, now, slots[k]))
    && (forall k | k in rest :: SameStory(begun, now, pending[k]))
    && (forall k | 0 <= k < |pending| ::
          pending[k] in now.degraded <==> k !in rest && Lost(polls(attempt, pending[k])))
  }

  predicate SameStory(a: Tracker, b: Tracker, s: Symbol) {
    SeenOf(a.seen, s) == SeenOf(b.seen, s) && (s in a.empty <==> s in b.empty)
  }

  lemma PassOneMore(polls: Polls, passes: nat, pending: seq<Symbol>, attempt: nat, rest: set<nat>,
      slots: map<nat, Entry>, begun: Tracker, before: Tracker, now: Tracker, k: nat, e: Entry)
    requires Distinct(pending) && PassedSoFar(polls, passes, pending, attempt, rest, slots, begun, before) && k in rest
    requires StepAt(polls, passes, pending[k], attempt, k, before, now, e)
    requires now.settled == before.settled || now.settled == before.settled + {k}
    requires now.degraded == before.degraded + if Lost(polls(attempt, pending[k])) then {pending[k]} else {}
    requires forall t | t != pending[k] :: SameStory(before, now, t)
    ensures PassedSoFar(polls, passes, pending, attempt, rest - {k}, slots[k := e], begun, now)
  {
    forall j | 0 <= j < |pending| && j != k
      ensures SameStory(before, now, pending[j]) && (j in now.settled <==> j in before.settled)
      ensures pending[j] in now.degraded <==> pending[j] in before.degraded
    {
      assert pending[j] != pending[k];
    }
    assert SameStory(begun, before, pending[k]);
  }

  class Confirmation {
    const polls: Polls
    const passes: nat
    var lastSeen: map<Symbol, Ref>
    var confirmedEmpty: set<Symbol>
    var settled: set<nat>
    var degraded: set<Symbol>

    constructor (polls: Polls, passes: nat)
      ensures this.polls == polls && this.passes == passes && lastSeen == map[] && confirmedEmpty == {}
    {
      this.polls, this.passes := polls, passes;
      lastSeen, confirmedEmpty, settled, degraded := map[], {}, {}, {};
    }

    ghost function View(): Tracker
      reads this
    {
      Tracker(lastSeen, confirmedEmpty, settled, degraded)
    }

    /** `_observe_open_symbol`, or `_open_deadline_entry` when the confirmation is over before the dispatch. */
    method ObserveOpen(position: nat, s: Symbol, attempt: nat) returns (entry: Entry)
      requires attempt < passes && position !in settled
      modifies this
      ensures IsStep(polls, passes, s, attempt, SeenOf(old(lastSeen), s), s in old(confirmedEmpty),
                     SeenOf(lastSeen, s), s in confirmedEmpty, position in settled, entry)
      ensures settled == old(settled) || settled == old(settled) + {position}
      ensures degraded == old(degraded) + if Lost(polls(attempt, s)) then {s} else {}
      ensures forall t | t != s ::
              SeenOf(lastSeen, t) == SeenOf(old(lastSeen), t) && (t in confirmedEmpty <==> t in old(confirmedEmpty))
    {
      match polls(attempt, s)
      case Expired =>
        settled := settled + {position};
        return Unresolved(s, SeenOf(lastSeen, s), s in confirmedEmpty);
      case Polled(price, valid, persisted, framed) =>
        if price <= 0 && valid {
          confirmedEmpty := confirmedEmpty + {s};
        } else {
          confirmedEmpty := confirmedEmpty - {s};
        }
        var ref := PriceRef(s, attempt);
        if !persisted {
          degraded, settled := degraded + {s}, settled + {position};
          return Entry(s, Price, Failed, []);
        }
        if !framed {
          degraded := degraded + {s};
        }
        if price > 0 {
          settled := settled + {position};
          return Entry(s, Price, Complete, [ref]);
        }
        lastSeen := lastSeen[s := ref];
        return Entry(s, Price, Partial, [ref]);
    }

    /** One pass over the pending symbols; the requests complete in any order. */
    method Pass(pending: seq<Symbol>, attempt: nat) returns (found: seq<Entry>)
      requires attempt < passes && Distinct(pending)
      modifies this
      ensures |found| == |pending| && settled <= Positions(|pending|)
      ensures forall k | 0 <= k < |pending| ::
                IsStep(polls, passes, pending[k], attempt,
                       SeenOf(old(lastSeen), pending[k]), pending[k] in old(confirmedEmpty),
                       SeenOf(lastSeen, pending[k]), pending[k] in confirmedEmpty, k in settled, found[k])
      ensures forall s :: s in degraded <==> s in pending && Lost(polls(attempt, s))
    {
      settled, degraded := {}, {};
      var slots: map<nat, Entry> := map[];
      var rest: set<nat> := Positions(|pending|);
      ghost var begun := View();
      while rest != {}
        invariant PassedSoFar(polls, passes, pending, attempt, rest, slots, begun, View())
        invariant forall s | s in degraded :: s in pending
        decreases rest
      {
        var k :| k in rest;
        ghost var before := View();
        var entry := ObserveOpen(k, pending[k], attempt);
        PassOneMore(polls, passes, pending, attempt, rest, slots, begun, before, View(), k, entry);
        slots := slots[k := entry];
        rest := rest - {k};
      }
      found := seq(|pending|, k requires 0 <= k < |pending| => slots[k]);
    }
  }

  /** A response whose evidence or frame could not be stored. */
  predicate Lost(p: Poll) {
    p.Polled? && (!p.persisted || !p.framed)
  }

  // ---- All passes ----------------------------------------------------------------------------------------------

  /** Entries of the positions that settled, in roster order, and the symbols that go on to the next pass. */
  function SettledEntries(found: seq<Entry>, settled: set<nat>): seq<Entry> {
    if found == [] then []
    else SettledEntries(found[..|found| - 1], settled) + (if |found| - 1 in settled then [found[|found| - 1]] else [])
  }

  function Unsettled(pending: seq<Symbol>, settled: set<nat>): seq<Symbol> {
    if pending == [] then []
    else
      Unsettled(pending[..|pending| - 1], settled)
      + (if |pending| - 1 in settled then [] else [pending[|pending| - 1]])
  }

  lemma {:induction false} SettledEntriesOf(pending: seq<Symbol>, found: seq<Entry>, settled: set<nat>, s: Symbol)
    requires |found| == |pending| && Distinct(pending)
    requires forall k | 0 <= k < |pending| :: found[k].symbol == pending[k] && found[k].dataset == Price
    ensures s !in pending ==> EntriesOf(SettledEntries(found, settled), s, Price) == []
    ensures forall k | 0 <= k < |pending| && pending[k] == s ::
              EntriesOf(SettledEntries(found, settled), s, Price) == if k in settled then [found[k]] else []
  {
    if found != [] {
      var n := |found| - 1;
      var before := SettledEntries(found[..n], settled);
      SettledEntriesOf(pending[..n], found[..n], settled, s);
      EntriesOfNext(before, found[n], s, Price);
      assert SettledEntries(found, settled) == if n in settled then before + [found[n]] else before;
      assert pending == pending[..n] + [pending[n]];
      forall k | 0 <= k < n && pending[k] == s
        ensures pending[n] != s && EntriesOf(before, s, Price) == if k in settled then [found[k]] else []
      {
        assert pending[..n][k] == pending[k] && found[..n][k] == found[k];
      }
      assert pending[n] == s ==> s !in pending[..n];
    }
  }

  lemma {:induction false} UnsettledArePending(pending: seq<Symbol>, settled: set<nat>, s: Symbol)
    ensures s in Unsettled(pending, settled) ==> s in pending
  {
    if pending != [] {
      var n := |pending| - 1;
      UnsettledArePending(pending[..n], settled, s);
      assert pending == pending[..n] + [pending[n]];
    }
  }

  lemma {:induction false} UnsettledAt(pending: seq<Symbol>, settled: set<nat>, k: nat)
    requires Distinct(pending) && k < |pending|
    ensures pending[k] in Unsettled(pending, settled) <==> k !in settled
  {
    var n := |pending| - 1;
    UnsettledArePending(pending[..n], settled, pending[n]);
    if k < n {
      assert pending[..n][k] == pending[k] != pending[n];
      UnsettledAt(pending[..n], settled, k);
    }
  }

  lemma {:induction false} UnsettledDistinct(pending: seq<Symbol>, settled: set<nat>)
    requires Distinct(pending)
    ensures Distinct(Unsettled(pending, settled))
  {
    if pending != [] {
      var n := |pending| - 1;
      UnsettledDistinct(pending[..n], settled);
      UnsettledArePending(pending[..n], settled, pending[n]);
      if n !in settled {
        DistinctNext(Unsettled(pending[..n], settled), pending[n]);
      }
    }
  }

  lemma UnsettledMembers(pending: seq<Symbol>, settled: set<nat>)
    requires Distinct(pending)
    ensures Distinct(Unsettled(pending, settled))
    ensures forall s | s in Unsettled(pending, settled) :: s in pending
    ensures forall k | 0 <= k < |pending| :: pending[k] in Unsettled(pending, settled) <==> k !in settled
  {
    UnsettledDistinct(pending, settled);
    forall s | s in Unsettled(pending, settled)
      ensures s in pending
    {
      UnsettledArePending(pending, settled, s);
    }
    forall k | 0 <= k < |pending|
      ensures pending[k] in Unsettled(pending, settled) <==> k !in settled
    {
      UnsettledAt(pending, settled, k);
    }
  }

  lemma {:induction false} SettledAreListed(found: seq<Entry>, settled: set<nat>)
    ensures forall e | e in SettledEntries(found, settled) :: e in found
  {
    if found != [] {
      SettledAreListed(found[..|found| - 1], settled);
      assert found == found[..|found| - 1] + [found[|found| - 1]];
    }
  }

  lemma DistinctNext(symbols: seq<Symbol>, s: Symbol)
    requires Distinct(symbols) && s !in symbols
    ensures Distinct(symbols + [s])
  {
  }

  predicate AllPrices(entries: seq<Entry>) {
    forall e | e in entries :: e.dataset == Price
  }

  lemma PricesOnly(entries: seq<Entry>, s: Symbol, d: Dataset)
    requires AllPrices(entries) && d != Price
    ensures EntriesOf(entries, s, d) == []
  {
    var found := EntriesOf(entries, s, d);
    EntriesOfNames(entries, s, d);
    if found != [] {
      EntriesOfMembers(entries, found[0]);
    }
  }

  /** Pending symbols have no entry yet and their story goes on; every other dispatched symbol has its one entry. */
  ghost predicate Accounted(c: Confirmation, dispatch: seq<Symbol>, pending: seq<Symbol>, attempt: nat,
      entries: seq<Entry>)
    reads c
  {
    && Distinct(pending) && (forall s | s in pending :: s in dispatch) && AllPrices(entries)
    && (forall s | s in pending :: EntriesOf(entries, s, Price) == [] &&
          FinalEntry(c.polls, c.passes, s) ==
              Fate(c.polls, c.passes, s, attempt, SeenOf(c.lastSeen, s), s in c.confirmedEmpty))
    && (forall s | s !in pending ::
        EntriesOf(entries, s, Price) == if s in dispatch then [FinalEntry(c.polls, c.passes, s)] else [])
  }

  /** A symbol that keeps the capture from being complete. */
  predicate Spoils(polls: Polls, passes: nat, s: Symbol) {
    !IsGood(FinalEntry(polls, passes, s).status) || !Kept(polls, passes, s, 0)
  }

  /** Nothing of a primary symbol was lost or left bad so far. */
  predicate Clean(polls: Polls, passes: nat, research: set<Symbol>, dispatch: seq<Symbol>, pending: seq<Symbol>,
      attempt: nat) {
    forall s | s in dispatch && s !in research ::
      if s in pending then Kept(polls, passes, s, 0) == Kept(polls, passes, s, attempt) else !Spoils(polls, passes, s)
  }

  predicate Spoiled(polls: Polls, passes: nat, research: set<Symbol>, dispatch: seq<Symbol>) {
    exists s | s in dispatch && s !in research :: Spoils(polls, passes, s)
  }

  /** What a pass adds to the incompleteness of the capture. */
  predicate PassSpoils(found: seq<Entry>, settled: set<nat>, degraded: set<Symbol>, research: set<Symbol>) {
    (exists s | s in degraded :: s !in research)
    || exists k | 0 <= k < |found| :: k in settled && found[k].symbol !in research && !IsGood(found[k].status)
  }

  /** Entries of one pass are appended for what settled; the rest goes on. */
  lemma AfterPass(c: Confirmation, dispatch: seq<Symbol>, pending: seq<Symbol>, attempt: nat, entries: seq<Entry>,
      seen: map<Symbol, Ref>, empty: set<Symbol>, found: seq<Entry>)
    requires Distinct(pending) && (forall s | s in pending :: s in dispatch) && AllPrices(entries)
    requires forall s | s in pending :: EntriesOf(entries, s, Price) == [] &&
               FinalEntry(c.polls, c.passes, s) == Fate(c.polls, c.passes, s, attempt, SeenOf(seen, s), s in empty)
    requires forall s | s !in pending ::
            EntriesOf(entries, s, Price) == if s in dispatch then [FinalEntry(c.polls, c.passes, s)] else []
    requires |found| == |pending| && forall k | 0 <= k < |pending| ::
               IsStep(c.polls, c.passes, pending[k], attempt, SeenOf(seen, pending[k]), pending[k] in empty,
                      SeenOf(c.lastSeen, pending[k]), pending[k] in c.confirmedEmpty, k in c.settled, found[k])
    ensures Accounted(c, dispatch, Unsettled(pending, c.settled), attempt + 1,
              entries + SettledEntries(found, c.settled))
  {
    var added, left := SettledEntries(found, c.settled), Unsettled(pending, c.settled);
    UnsettledMembers(pending, c.settled);
    SettledAreListed(found, c.settled);
    forall s
      ensures s in left ==> EntriesOf(entries + added, s, Price) == []
      ensures s in left ==> FinalEntry(c.polls, c.passes, s)
                            == Fate(c.polls, c.passes, s, attempt + 1, SeenOf(c.lastSeen, s), s in c.confirmedEmpty)
      ensures s !in left ==>
              EntriesOf(entries + added, s, Price) == if s in dispatch then [FinalEntry(c.polls, c.passes, s)] else []
    {
      EntriesOfConcat(entries, added, s, Price);
      SettledEntriesOf(pending, found, c.settled, s);
      if s in pending {
        var k :| 0 <= k < |pending| && pending[k] == s;
        assert IsStep(c.polls, c.passes, pending[k], attempt, SeenOf(seen, pending[k]), pending[k] in empty,
                      SeenOf(c.lastSeen, pending[k]), pending[k] in c.confirmedEmpty, k in c.settled, found[k]);
      }
    }
  }

  lemma CleanAfterPass(c: Confirmation, research: set<Symbol>, dispatch: seq<Symbol>, pending: seq<Symbol>,
      attempt: nat, seen: map<Symbol, Ref>, empty: set<Symbol>, found: seq<Entry>)
    requires Distinct(pending) && (forall s | s in pending :: s in dispatch) && attempt < c.passes
    requires Clean(c.polls, c.passes, research, dispatch, pending, attempt)
    requires forall s | s in pending ::
               FinalEntry(c.polls, c.passes, s) == Fate(c.polls, c.passes, s, attempt, SeenOf(seen, s), s in empty)
    requires |found| == |pending| && forall k | 0 <= k < |pending| ::
               IsStep(c.polls, c.passes, pending[k], attempt, SeenOf(seen, pending[k]), pending[k] in empty,
                      SeenOf(c.lastSeen, pending[k]), pending[k] in c.confirmedEmpty, k in c.settled, found[k])
    requires forall s :: s in c.degraded <==> s in pending && Lost(c.polls(attempt, s))
    ensures if PassSpoils(found, c.settled, c.degraded, research) then Spoiled(c.polls, c.passes, research, dispatch)
            else Clean(c.polls, c.passes, research, dispatch, Unsettled(pending, c.settled), attempt + 1)
  {
    UnsettledMembers(pending, c.settled);
    forall k | 0 <= k < |pending| && pending[k] !in research
      ensures Lost(c.polls(attempt, pending[k])) ==> Spoils(c.polls, c.passes, pending[k])
      ensures k in c.settled && !IsGood(found[k].status) ==> Spoils(c.polls, c.passes, pending[k])
      ensures !Lost(c.polls(attempt, pending[k])) && k !in c.settled
              ==> Kept(c.polls, c.passes, pending[k], 0) == Kept(c.polls, c.passes, pending[k], attempt + 1)
      ensures !Lost(c.polls(attempt, pending[k])) && k in c.settled && IsGood(found[k].status)
              ==> !Spoils(c.polls, c.passes, pending[k])
    {
      assert pending[k] in dispatch;
      assert IsStep(c.polls, c.passes, pending[k], attempt, SeenOf(seen, pending[k]), pending[k] in empty,
                    SeenOf(c.lastSeen, pending[k]), pending[k] in c.confirmedEmpty, k in c.settled, found[k]);
    }
    if PassSpoils(found, c.settled, c.degraded, research) {
      if s :| s in c.degraded && s !in research {
        assert Spoils(c.polls, c.passes, s);
      } else {
        var k :| 0 <= k < |found| && k in c.settled && found[k].symbol !in research && !IsGood(found[k].status);
        assert pending[k] in dispatch && Spoils(c.polls, c.passes, pending[k]);
      }
    }
  }

  /** Passes over all symbols that have not printed, then a verdict for those that never did. */
  method ConfirmOpens(dispatch: seq<Symbol>, research: set<Symbol>, c: Confirmation) returns (entries: seq<Entry>,
      incomplete: bool)
    requires Distinct(dispatch) && c.lastSeen == map[] && c.confirmedEmpty == {}
    modifies c
    ensures AllPrices(entries)
    ensures forall s :: EntriesOf(entries, s, Price) == if s in dispatch then [FinalEntry(c.polls, c.passes, s)] else []
    ensures incomplete <==> Spoiled(c.polls, c.passes, research, dispatch)
  {
    entries, incomplete := [], false;
    var pending, attempt := dispatch, 0;
    while pending != [] && attempt < c.passes
      invariant Accounted(c, dispatch, pending, attempt, entries)
      invariant if incomplete then Spoiled(c.polls, c.passes, research, dispatch)
                else Clean(c.polls, c.passes, research, dispatch, pending, attempt)
      decreases c.passes - attempt
    {
      ghost var seen, empty, before := c.lastSeen, c.confirmedEmpty, entries;
      var found := c.Pass(pending, attempt);
      AfterPass(c, dispatch, pending, attempt, before, seen, empty, found);
      if !incomplete {
        CleanAfterPass(c, research, dispatch, pending, attempt, seen, empty, found);
      }
      entries := entries + SettledEntries(found, c.settled);
      incomplete := incomplete || PassSpoils(found, c.settled, c.degraded, research);
      pending := Unsettled(pending, c.settled);
      attempt := attempt + 1;
    }
    entries, incomplete := CloseOut(dispatch, research, c, pending, attempt, entries, incomplete);
  }

  /** The final entries of symbols without an open price. */
  method CloseOut(dispatch: seq<Symbol>, research: set<Symbol>, c: Confirmation, pending: seq<Symbol>, attempt: nat,
      before: seq<Entry>, wasIncomplete: bool) returns (entries: seq<Entry>, incomplete: bool)
    requires Accounted(c, dispatch, pending, attempt, before) && (pending == [] || attempt >= c.passes)
    requires StandsAt(c, dispatch, research, pending, attempt, wasIncomplete)
    ensures AllPrices(entries)
    ensures forall s :: EntriesOf(entries, s, Price) == if s in dispatch then [FinalEntry(c.polls, c.passes, s)] else []
    ensures incomplete <==> Spoiled(c.polls, c.passes, research, dispatch)
  {
    entries, incomplete := before, wasIncomplete;
    var left := pending;
    while left != []
      invariant Accounted(c, dispatch, left, attempt, entries)
      invariant StandsAt(c, dispatch, research, left, attempt, incomplete)
      decreases |left|
    {
      var s := left[0];
      var entry := Unresolved(s, SeenOf(c.lastSeen, s), s in c.confirmedEmpty);
      LeaveFirst(c, dispatch, research, left, attempt, entries, entry, incomplete);
      if s !in research && !IsGood(entry.status) {
        incomplete := true;
        assert StandsAt(c, dispatch, research, left[1..], attempt, incomplete);
      } else {
        assert StandsAt(c, dispatch, research, left[1..], attempt, incomplete);
      }
      entries := entries + [entry];
      left := left[1..];
    }
  }

  /** The incomplete flag says whether something already spoiled the capture, and if not, nothing was lost so far. */
  ghost predicate StandsAt(c: Confirmation, dispatch: seq<Symbol>, research: set<Symbol>, pending: seq<Symbol>,
      attempt: nat, incomplete: bool)
  {
    if incomplete then Spoiled(c.polls, c.passes, research, dispatch)
    else Clean(c.polls, c.passes, research, dispatch, pending, attempt)
  }

  lemma LeaveFirstAt(c: Confirmation, dispatch: seq<Symbol>, pending: seq<Symbol>, attempt: nat,
      entries: seq<Entry>, entry: Entry, s: Symbol)
    requires Accounted(c, dispatch, pending, attempt, entries) && pending != []
    requires entry.symbol == pending[0] && entry.dataset == Price && entry == FinalEntry(c.polls, c.passes, pending[0])
    ensures s in pending[1..] ==> EntriesOf(entries + [entry], s, Price) == []
    ensures s !in pending[1..] ==>
              EntriesOf(entries + [entry], s, Price) == if s in dispatch then [FinalEntry(c.polls, c.passes, s)] else []
  {
    FirstAndRest(pending);
    EntriesOfNext(entries, entry, s, Price);
  }

  lemma LeaveFirstAccounted(c: Confirmation, dispatch: seq<Symbol>, pending: seq<Symbol>, attempt: nat,
      entries: seq<Entry>, entry: Entry)
    requires Accounted(c, dispatch, pending, attempt, entries) && pending != [] && attempt >= c.passes
    requires entry == Unresolved(pending[0], SeenOf(c.lastSeen, pending[0]), pending[0] in c.confirmedEmpty)
    ensures entry == FinalEntry(c.polls, c.passes, pending[0])
    ensures Accounted(c, dispatch, pending[1..], attempt, entries + [entry])
  {
    FirstAndRest(pending);
    forall s
      ensures s in pending[1..] ==> EntriesOf(entries + [entry], s, Price) == []
      ensures s !in pending[1..] ==>
              EntriesOf(entries + [entry], s, Price) == if s in dispatch then [FinalEntry(c.polls, c.passes, s)] else []
    {
      LeaveFirstAt(c, dispatch, pending, attempt, entries, entry, s);
    }
  }

  lemma FirstAndRest(symbols: seq<Symbol>)
    requires symbols != [] && Distinct(symbols)
    ensures Distinct(symbols[1..]) && symbols[0] in symbols
    ensures forall s :: s in symbols[1..] <==> s in symbols && s != symbols[0]
  {
    assert symbols == [symbols[0]] + symbols[1..];
  }

  lemma LeaveFirst(c: Confirmation, dispatch: seq<Symbol>, research: set<Symbol>, pending: seq<Symbol>, attempt: nat,
      entries: seq<Entry>, entry: Entry, incomplete: bool)
    requires Accounted(c, dispatch, pending, attempt, entries) && pending != [] && attempt >= c.passes
    requires entry == Unresolved(pending[0], SeenOf(c.lastSeen, pending[0]), pending[0] in c.confirmedEmpty)
    requires StandsAt(c, dispatch, research, pending, attempt, incomplete)
    ensures Accounted(c, dispatch, pending[1..], attempt, entries + [entry])
    ensures pending[0] !in research && !IsGood(entry.status) ==>
            StandsAt(c, dispatch, research, pending[1..], attempt, true)
    ensures pending[0] in research || IsGood(entry.status) ==>
            StandsAt(c, dispatch, research, pending[1..], attempt, incomplete)
  {
    LeaveFirstAccounted(c, dispatch, pending, attempt, entries, entry);
    FirstAndRest(pending);
    LeaveFirstStands(c, dispatch, research, pending, attempt, incomplete);
  }

  lemma LeaveFirstStands(c: Confirmation, dispatch: seq<Symbol>, research: set<Symbol>, pending: seq<Symbol>,
      attempt: nat, incomplete: bool)
    requires pending != [] && pending[0] in dispatch && attempt >= c.passes
    requires forall s :: s in pending[1..] <==> s in pending && s != pending[0]
    requires StandsAt(c, dispatch, research, pending, attempt, incomplete)
    ensures var good := IsGood(FinalEntry(c.polls, c.passes, pending[0]).status);
            && (pending[0] !in research && !good ==> StandsAt(c, dispatch, research, pending[1..], attempt, true))
            && (pending[0] in research || good ==> StandsAt(c, dispatch, research, pending[1..], attempt, incomplete))
  {
    assert !IsGood(FinalEntry(c.polls, c.passes, pending[0]).status) ==> Spoils(c.polls, c.passes, pending[0]);
    assert Kept(c.polls, c.passes, pending[0], attempt);
  }
}
