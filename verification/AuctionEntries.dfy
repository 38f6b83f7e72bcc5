/**
 * Coverage entries of one auction capture (src/daily/auction_capture.py): what was observed of each symbol, by dataset.
 */
module AuctionEntries {
  import opened Common

  type Symbol = int

  datatype Dataset = Orderbook(round: nat) | Program(round: nat) | Price

  datatype Ref =
    | BookRef(symbol: Symbol, round: nat)
    | ProgramRef(symbol: Symbol, round: nat)
    | PriceRef(symbol: Symbol, attempt: nat)

  datatype Entry = Entry(symbol: Symbol, dataset: Dataset, status: Status, refs: seq<Ref>)

  predicate Distinct(symbols: seq<Symbol>) {
    forall i, j | 0 <= i < j < |symbols| :: symbols[i] != symbols[j]
  }

  function EntriesOf(entries: seq<Entry>, s: Symbol, d: Dataset): seq<Entry> {
    if entries == [] then []
    else
      var last := entries[|entries| - 1];
      EntriesOf(entries[..|entries| - 1], s, d) + (if last.symbol == s && last.dataset == d then [last] else [])
  }

  lemma {:induction false} EntriesOfConcat(a: seq<Entry>, b: seq<Entry>, s: Symbol, d: Dataset)
    ensures EntriesOf(a + b, s, d) == EntriesOf(a, s, d) + EntriesOf(b, s, d)
  {
    if b == [] {
      assert a + b == a;
    } else {
      assert (a + b)[..|a + b| - 1] == a + b[..|b| - 1];
      EntriesOfConcat(a, b[..|b| - 1], s, d);
    }
  }

  lemma EntriesOfNext(entries: seq<Entry>, e: Entry, s: Symbol, d: Dataset)
    ensures e.symbol == s && e.dataset == d ==> EntriesOf(entries + [e], s, d) == EntriesOf(entries, s, d) + [e]
    ensures e.symbol != s || e.dataset != d ==> EntriesOf(entries + [e], s, d) == EntriesOf(entries, s, d)
  {
    assert (entries + [e])[..|entries|] == entries;
    assert EntriesOf(entries, s, d) + [] == EntriesOf(entries, s, d);
  }

  lemma {:induction false} EntriesOfMembers(entries: seq<Entry>, e: Entry)
    ensures e in entries <==> e in EntriesOf(entries, e.symbol, e.dataset)
  {
    if entries != [] {
      EntriesOfMembers(entries[..|entries| - 1], e);
      assert entries == entries[..|entries| - 1] + [entries[|entries| - 1]];
    }
  }

  lemma {:induction false} EntriesOfNames(entries: seq<Entry>, s: Symbol, d: Dataset)
    ensures forall e | e in EntriesOf(entries, s, d) :: e.symbol == s && e.dataset == d
  {
    if entries != [] { EntriesOfNames(entries[..|entries| - 1], s, d); }
  }

  /** `split_research_entries`: the entries of one side, in order. */
  function Split(entries: seq<Entry>, research: set<Symbol>, side: bool): seq<Entry> {
    if entries == [] then []
    else
      var last := entries[|entries| - 1];
      Split(entries[..|entries| - 1], research, side) + (if (last.symbol in research) == side then [last] else [])
  }

  lemma {:induction false} SplitKeepsEntries(entries: seq<Entry>, research: set<Symbol>, side: bool, s: Symbol,
      d: Dataset)
    ensures EntriesOf(Split(entries, research, side), s, d)
            == if (s in research) == side then EntriesOf(entries, s, d) else []
  {
    if entries != [] {
      var before, last := entries[..|entries| - 1], entries[|entries| - 1];
      SplitKeepsEntries(before, research, side, s, d);
      assert entries == before + [last];
      EntriesOfNext(before, last, s, d);
      EntriesOfNext(Split(before, research, side), last, s, d);
      if (last.symbol in research) != side {
        assert Split(before, research, side) + [] == Split(before, research, side);
      }
    }
  }
}
