/**
 * `run_auction_capture` (src/daily/auction_capture.py): rounds over the whole dispatch list, the opening confirmation,
 * and the entries and status of the two manifests.
 */
module AuctionCapture {
  import opened Common
  import opened AuctionEntries
  import opened OpenConfirm

  /** One orderbook request of a round: never dispatched, raised, or answered and then stored (or not). */
  datatype BookReply = Undispatched | Raised | Answered(ok: bool, late: bool, persisted: bool, framed: bool)

  /** One program request of a round; it has no deadline of its own once it was dispatched. */
  datatype ProgramReply = NotAsked | Threw | Replied(ok: bool, stored: bool, framed: bool)

  /** One kind of scheduled rounds, with what the vendor and the store make of every request. */
  datatype Rounds =
    | Orderbooks(books: (nat, Symbol) -> BookReply, expired: nat -> bool)
    | Programs(programs: (nat, Symbol) -> ProgramReply)

  function BookEntry(s: Symbol, round: nat, reply: BookReply): Entry {
    match reply
    case Undispatched => Entry(s, Orderbook(round), Partial, [])
    case Raised => Entry(s, Orderbook(round), Failed, [])
    case Answered(ok, late, persisted, _) =>
      if !persisted then Entry(s, Orderbook(round), Failed, [])
      else Entry(s, Orderbook(round), if ok && !late then Complete else Partial, [BookRef(s, round)])
  }

  predicate BookDegrades(reply: BookReply) {
    reply.Raised? || (reply.Answered? && (reply.late || !reply.persisted || !reply.framed))
  }

  function ProgramEntry(s: Symbol, round: nat, reply: ProgramReply): Entry {
    match reply
    case NotAsked => Entry(s, Program(round), Partial, [])
    case Threw => Entry(s, Program(round), Failed, [])
    case Replied(ok, stored, framed) =>
      if !stored then Entry(s, Program(round), Failed, [])
      else
        var status := if !framed then Partial else if ok then Complete else Failed;
        Entry(s, Program(round), status, [ProgramRef(s, round)])
  }

  // ---- Scheduled rounds ----------------------------------------------------------------------------------------

  function DatasetOf(r: Rounds, n: nat): Dataset {
    match r
    case Orderbooks(_, _) => Orderbook(n)
    case Programs(_) => Program(n)
  }

  /** An orderbook round that woke up past its deadline dispatches nobody. */
  predicate Missed(r: Rounds, n: nat) {
    r.Orderbooks? && r.expired(n)
  }

  function EntryIn(r: Rounds, n: nat, s: Symbol): (e: Entry)
    ensures e.symbol == s && e.dataset == DatasetOf(r, n)
  {
    match r
    case Orderbooks(books, expired) => BookEntry(s, n, if expired(n) then Undispatched else books(n, s))
    case Programs(programs) => ProgramEntry(s, n, programs(n, s))
  }

  /** The observation keeps the capture from being complete; a degraded orderbook does so whatever its entry says. */
  predicate SpoilsIn(r: Rounds, n: nat, s: Symbol) {
    || !IsGood(EntryIn(r, n, s).status)
    || (r.Orderbooks? && !r.expired(n) && BookDegrades(r.books(n, s)))
  }

  predicate RoundSpoiled(r: Rounds, research: set<Symbol>, dispatch: seq<Symbol>, n: nat) {
    Missed(r, n) || exists s | s in dispatch && s !in research :: SpoilsIn(r, n, s)
  }

  lemma RoundSpoiledNext(r: Rounds, research: set<Symbol>, dispatch: seq<Symbol>, n: nat, i: nat)
    requires Distinct(dispatch) && i < |dispatch|
    ensures RoundSpoiled(r, research, dispatch[..i + 1], n)
            <==> RoundSpoiled(r, research, dispatch[..i], n)
                 || (dispatch[i] !in research && SpoilsIn(r, n, dispatch[i]))
    ensures dispatch[i] !in dispatch[..i]
    ensures forall s :: s in dispatch[..i + 1] <==> s in dispatch[..i] || s == dispatch[i]
  {
    assert dispatch[..i + 1] == dispatch[..i] + [dispatch[i]];
  }

  method ObserveRound(dispatch: seq<Symbol>, research: set<Symbol>, r: Rounds, n: nat)
    returns (entries: seq<Entry>, incomplete: bool)
    requires Distinct(dispatch)
    ensures forall s, d :: EntriesOf(entries, s, d)
              == if s in dispatch && d == DatasetOf(r, n) then [EntryIn(r, n, s)] else []
    ensures incomplete <==> RoundSpoiled(r, research, dispatch, n)
  {
    entries, incomplete := [], Missed(r, n);
    for i := 0 to |dispatch|
      invariant forall s, d :: EntriesOf(entries, s, d)
                  == if s in dispatch[..i] && d == DatasetOf(r, n) then [EntryIn(r, n, s)] else []
      invariant incomplete <==> RoundSpoiled(r, research, dispatch[..i], n)
    {
      var s := dispatch[i];
      var entry := EntryIn(r, n, s);
      assert (entries + [entry])[..|entries|] == entries;
      RoundSpoiledNext(r, research, dispatch, n, i);
      entries := entries + [entry];
      incomplete := incomplete || (s !in research && SpoilsIn(r, n, s));
    }
    assert dispatch[..|dispatch|] == dispatch;
  }

  /** The entry owed by the first `n` rounds of one kind. */
  function RoundsOwed(r: Rounds, dispatch: seq<Symbol>, n: nat, s: Symbol, d: Dataset): seq<Entry> {
    if s in dispatch && !d.Price? && d.round < n && d == DatasetOf(r, d.round) then [EntryIn(r, d.round, s)] else []
  }

  ghost predicate RoundsHeld(entries: seq<Entry>, r: Rounds, dispatch: seq<Symbol>, n: nat) {
    forall s, d :: EntriesOf(entries, s, d) == RoundsOwed(r, dispatch, n, s, d)
  }

  predicate RoundsSpoiled(r: Rounds, research: set<Symbol>, dispatch: seq<Symbol>, n: nat) {
    n > 0 && (RoundSpoiled(r, research, dispatch, n - 1) || RoundsSpoiled(r, research, dispatch, n - 1))
  }

  lemma {:induction false} NoRoundSpoiled(r: Rounds, research: set<Symbol>, dispatch: seq<Symbol>, n: nat, k: nat)
    requires !RoundsSpoiled(r, research, dispatch, n) && k < n
    ensures !RoundSpoiled(r, research, dispatch, k)
  {
    if k < n - 1 {
      NoRoundSpoiled(r, research, dispatch, n - 1, k);
    }
  }

  lemma RoundHeld(entries: seq<Entry>, found: seq<Entry>, r: Rounds, dispatch: seq<Symbol>, n: nat)
    requires RoundsHeld(entries, r, dispatch, n)
    requires forall s, d :: EntriesOf(found, s, d)
               == if s in dispatch && d == DatasetOf(r, n) then [EntryIn(r, n, s)] else []
    ensures RoundsHeld(entries + found, r, dispatch, n + 1)
  {
    forall s, d
      ensures EntriesOf(entries + found, s, d) == RoundsOwed(r, dispatch, n + 1, s, d)
    {
      EntriesOfConcat(entries, found, s, d);
    }
  }

  /** All rounds of one kind, in order. */
  method ObserveRounds(dispatch: seq<Symbol>, research: set<Symbol>, r: Rounds, rounds: nat)
    returns (entries: seq<Entry>, incomplete: bool)
    requires Distinct(dispatch)
    ensures RoundsHeld(entries, r, dispatch, rounds)
    ensures incomplete <==> RoundsSpoiled(r, research, dispatch, rounds)
  {
    entries, incomplete := [], false;
    for n := 0 to rounds
      invariant RoundsHeld(entries, r, dispatch, n)
      invariant incomplete <==> RoundsSpoiled(r, research, dispatch, n)
    {
      var found, spoiled := ObserveRound(dispatch, research, r, n);
      RoundHeld(entries, found, r, dispatch, n);
      entries := entries + found;
      incomplete := incomplete || spoiled;
    }
  }

  /** What unspoiled rounds owe a primary symbol is good. */
  lemma UnspoiledIsGood(r: Rounds, research: set<Symbol>, dispatch: seq<Symbol>, n: nat, s: Symbol, d: Dataset)
    requires !RoundsSpoiled(r, research, dispatch, n) && s !in research
    ensures forall e | e in RoundsOwed(r, dispatch, n, s, d) :: IsGood(e.status)
  {
    if RoundsOwed(r, dispatch, n, s, d) != [] {
      NoRoundSpoiled(r, research, dispatch, n, d.round);
      assert !SpoilsIn(r, d.round, s);
    }
  }

  // ---- The manifests -------------------------------------------------------------------------------------------

  function PriceOwed(dispatch: seq<Symbol>, polls: Polls, passes: nat, s: Symbol, d: Dataset): seq<Entry> {
    if s in dispatch && d.Price? then [FinalEntry(polls, passes, s)] else []
  }

  /** What both manifests hold: the entries owed, each on its side. */
  ghost predicate Divided(primary: seq<Entry>, extras: seq<Entry>, research: set<Symbol>,
      owed: (Symbol, Dataset) -> seq<Entry>)
  {
    && (forall s, d :: EntriesOf(primary, s, d) == if s in research then [] else owed(s, d))
    && (forall s, d :: EntriesOf(extras, s, d) == if s in research then owed(s, d) else [])
  }

  /** The end of a capture: the research entries split off, and the status of the primary manifest. */
  method Conclude(entries: seq<Entry>, research: set<Symbol>, incomplete: bool,
      ghost owed: (Symbol, Dataset) -> seq<Entry>)
    returns (primary: seq<Entry>, extras: seq<Entry>, status: Status)
    requires forall s, d :: EntriesOf(entries, s, d) == owed(s, d)
    requires !incomplete ==> forall s, d, e | s !in research && e in owed(s, d) :: IsGood(e.status)
    ensures Divided(primary, extras, research, owed)
    ensures status == if incomplete then Partial else Complete
    ensures status.Complete? ==> forall e | e in primary :: IsGood(e.status)
  {
    primary, extras := Split(entries, research, false), Split(entries, research, true);
    forall s, d
      ensures EntriesOf(primary, s, d) == if s in research then [] else owed(s, d)
      ensures EntriesOf(extras, s, d) == if s in research then owed(s, d) else []
    {
      SplitKeepsEntries(entries, research, false, s, d);
      SplitKeepsEntries(entries, research, true, s, d);
    }
    forall e | e in primary
      ensures e.symbol !in research && e in owed(e.symbol, e.dataset)
    {
      EntriesOfMembers(primary, e);
    }
    status := if (exists e | e in primary :: !IsGood(e.status)) || incomplete then Partial else Complete;
  }

  /** `run_auction_capture` in its opening phase, up to the two manifests it publishes. */
  method CaptureOpen(dispatch: seq<Symbol>, research: set<Symbol>, troubled: bool, rounds: nat,
      books: (nat, Symbol) -> BookReply, expired: nat -> bool, c: Confirmation)
    returns (primary: seq<Entry>, extras: seq<Entry>, status: Status)
    requires Distinct(dispatch) && c.lastSeen == map[] && c.confirmedEmpty == {}
    modifies c
    ensures Divided(primary, extras, research, (s, d) =>
              RoundsOwed(Orderbooks(books, expired), dispatch, rounds, s, d)
              + PriceOwed(dispatch, c.polls, c.passes, s, d))
    ensures status.Complete? ==> forall e | e in primary :: IsGood(e.status)
    ensures status.Complete? || status.Partial?
    ensures status.Complete? <==>
            && !troubled && !RoundsSpoiled(Orderbooks(books, expired), research, dispatch, rounds)
            && !Spoiled(c.polls, c.passes, research, dispatch)
  {
    var r := Orderbooks(books, expired);
    ghost var polls, passes := c.polls, c.passes;
    ghost var owed := (s, d) => RoundsOwed(r, dispatch, rounds, s, d) + PriceOwed(dispatch, polls, passes, s, d);
    var first, early := ObserveRounds(dispatch, research, r, rounds);
    var second, late := ConfirmOpens(dispatch, research, c);
    forall s, d
      ensures EntriesOf(first + second, s, d) == owed(s, d)
    {
      EntriesOfConcat(first, second, s, d);
      if d != Price { PricesOnly(second, s, d); }
    }
    if !early && !late {
      forall s, d, e | s !in research && e in owed(s, d)
        ensures IsGood(e.status)
      {
        UnspoiledIsGood(r, research, dispatch, rounds, s, d);
        assert s in dispatch ==> !Spoils(polls, passes, s);
      }
    }
    primary, extras, status := Conclude(first + second, research, troubled || early || late, owed);
  }

  /** `run_auction_capture` in its closing phase: orderbook rounds, and program rounds beside them. */
  method CaptureClose(dispatch: seq<Symbol>, research: set<Symbol>, troubled: bool, rounds: nat,
      books: (nat, Symbol) -> BookReply, expired: nat -> bool, programRounds: nat,
      programs: (nat, Symbol) -> ProgramReply)
    returns (primary: seq<Entry>, extras: seq<Entry>, status: Status)
    requires Distinct(dispatch)
    ensures Divided(primary, extras, research, (s, d) =>
              RoundsOwed(Orderbooks(books, expired), dispatch, rounds, s, d)
              + RoundsOwed(Programs(programs), dispatch, programRounds, s, d))
    ensures status.Complete? ==> forall e | e in primary :: IsGood(e.status)
    ensures status.Complete? || status.Partial?
    ensures status.Complete? <==>
            && !troubled && !RoundsSpoiled(Orderbooks(books, expired), research, dispatch, rounds)
            && !RoundsSpoiled(Programs(programs), research, dispatch, programRounds)
  {
    var a, b := Orderbooks(books, expired), Programs(programs);
    ghost var owed := (s, d) => RoundsOwed(a, dispatch, rounds, s, d) + RoundsOwed(b, dispatch, programRounds, s, d);
    var first, early := ObserveRounds(dispatch, research, a, rounds);
    var second, late := ObserveRounds(dispatch, research, b, programRounds);
    forall s, d
      ensures EntriesOf(first + second, s, d) == owed(s, d)
    {
      EntriesOfConcat(first, second, s, d);
    }
    if !early && !late {
      forall s, d, e | s !in research && e in owed(s, d)
        ensures IsGood(e.status)
      {
        UnspoiledIsGood(a, research, dispatch, rounds, s, d);
        UnspoiledIsGood(b, research, dispatch, programRounds, s, d);
      }
    }
    primary, extras, status := Conclude(first + second, research, troubled || early || late, owed);
  }
}
