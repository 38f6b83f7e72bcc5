/**
 * Exit planning and its report (src/daily/order_session.py over src/execution/order_journal.py): greedy allocation of
 * the sellable quantity to open lots, and the shortfall that a run and a rerun account for.
 */
module ExitPlan {
  import OrderJournal

  type Symbol = int
  type EntryId = int

  /** Shares bought by one entry and not yet sold. */
  datatype Lot = Lot(entry: EntryId, symbol: Symbol, qty: nat)

  datatype Intent = Intent(parent: EntryId, symbol: Symbol, qty: nat)

  datatype Skip = Skip(parent: EntryId, symbol: Symbol)

  datatype Position = Position(symbol: Symbol, sellable: int)

  function Min(a: int, b: int): int {
    if a <= b then a else b
  }

  // ---- The plan, in closed form ---------------------------------------------------------------------------------

  function SellableOf(positions: seq<Position>): map<Symbol, int> {
    if positions == [] then map[]
    else
      var last := positions[|positions| - 1];
      SellableOf(positions[..|positions| - 1])[last.symbol := last.sellable]
  }

  function Available(sellable: map<Symbol, int>, s: Symbol): int {
    if s in sellable then sellable[s] else 0
  }

  function Ceiling(sellable: map<Symbol, int>, s: Symbol): nat {
    if Available(sellable, s) > 0 then Available(sellable, s) else 0
  }

  function Held(lots: seq<Lot>, s: Symbol): nat {
    if lots == [] then 0
    else Held(lots[..|lots| - 1], s) + (if lots[|lots| - 1].symbol == s then lots[|lots| - 1].qty else 0)
  }

  /** What lots in this order can sell of a symbol. */
  function Sellable(lots: seq<Lot>, sellable: map<Symbol, int>, s: Symbol): nat {
    Min(Held(lots, s), Ceiling(sellable, s))
  }

  /** What the last lot adds to that. */
  function Share(lots: seq<Lot>, sellable: map<Symbol, int>): (share: nat)
    requires lots != []
    ensures share <= lots[|lots| - 1].qty
  {
    var s := lots[|lots| - 1].symbol;
    Sellable(lots, sellable, s) - Sellable(lots[..|lots| - 1], sellable, s)
  }

  function Intents(lots: seq<Lot>, sellable: map<Symbol, int>): seq<Intent> {
    if lots == [] then []
    else
      var lot := lots[|lots| - 1];
      Intents(lots[..|lots| - 1], sellable)
      + (if Share(lots, sellable) > 0 then [Intent(lot.entry, lot.symbol, Share(lots, sellable))] else [])
  }

  function Skips(lots: seq<Lot>, sellable: map<Symbol, int>): seq<Skip> {
    if lots == [] then []
    else
      var lot := lots[|lots| - 1];
      Skips(lots[..|lots| - 1], sellable) + (if Share(lots, sellable) > 0 then [] else [Skip(lot.entry, lot.symbol)])
  }

  function Total(intents: seq<Intent>, s: Symbol): nat {
    if intents == [] then 0
    else
      Total(intents[..|intents| - 1], s)
      + (if intents[|intents| - 1].symbol == s then intents[|intents| - 1].qty else 0)
  }

  /** How often an entry is planned, skipped, and held as a lot. */
  function IntentCount(intents: seq<Intent>, e: EntryId): nat {
    if intents == [] then 0
    else IntentCount(intents[..|intents| - 1], e) + (if intents[|intents| - 1].parent == e then 1 else 0)
  }

  function SkipCount(skips: seq<Skip>, e: EntryId): nat {
    if skips == [] then 0 else SkipCount(skips[..|skips| - 1], e) + (if skips[|skips| - 1].parent == e then 1 else 0)
  }

  function LotCount(lots: seq<Lot>, e: EntryId): nat {
    if lots == [] then 0 else LotCount(lots[..|lots| - 1], e) + (if lots[|lots| - 1].entry == e then 1 else 0)
  }

  lemma DecideLot(lots: seq<Lot>, sellable: map<Symbol, int>)
    requires lots != []
    ensures var lot := lots[|lots| - 1];
            if Share(lots, sellable) > 0
            then && Intents(lots, sellable)
                    == Intents(lots[..|lots| - 1], sellable) + [Intent(lot.entry, lot.symbol, Share(lots, sellable))]
                 && Skips(lots, sellable) == Skips(lots[..|lots| - 1], sellable)
            else && Intents(lots, sellable) == Intents(lots[..|lots| - 1], sellable)
                 && Skips(lots, sellable) == Skips(lots[..|lots| - 1], sellable) + [Skip(lot.entry, lot.symbol)]
  {
  }

  lemma {:induction false} IntentsPrefix(lots: seq<Lot>, sellable: map<Symbol, int>, n: nat)
    requires n <= |lots|
    ensures Intents(lots[..n], sellable) <= Intents(lots, sellable)
  {
    if n < |lots| {
      assert lots[..|lots| - 1][..n] == lots[..n];
      IntentsPrefix(lots[..|lots| - 1], sellable, n);
      DecideLot(lots, sellable);
    } else {
      assert lots[..n] == lots;
    }
  }

  lemma TotalNext(intents: seq<Intent>, i: Intent, s: Symbol)
    ensures Total(intents + [i], s) == Total(intents, s) + (if i.symbol == s then i.qty else 0)
  {
    assert (intents + [i])[..|intents|] == intents;
  }

  lemma {:induction false} PlanSellsTotal(lots: seq<Lot>, sellable: map<Symbol, int>, s: Symbol)
    ensures Total(Intents(lots, sellable), s) == Sellable(lots, sellable, s)
  {
    if lots != [] {
      var n := |lots| - 1;
      PlanSellsTotal(lots[..n], sellable, s);
      DecideLot(lots, sellable);
      TotalNext(Intents(lots[..n], sellable), Intent(lots[n].entry, lots[n].symbol, Share(lots, sellable)), s);
    }
  }

  /** In every initial part of the lot order, each symbol sells the smaller of what is held and what is sellable. */
  lemma PlannedSellsTotal(lots: seq<Lot>, sellable: map<Symbol, int>, n: nat, s: Symbol)
    requires n <= |lots|
    ensures Intents(lots[..n], sellable) <= Intents(lots, sellable)
    ensures Total(Intents(lots[..n], sellable), s) == Min(Held(lots[..n], s), Ceiling(sellable, s))
  {
    IntentsPrefix(lots, sellable, n);
    PlanSellsTotal(lots[..n], sellable, s);
  }

  lemma CountNext(intents: seq<Intent>, i: Intent, skips: seq<Skip>, k: Skip, e: EntryId)
    ensures IntentCount(intents + [i], e) == IntentCount(intents, e) + (if i.parent == e then 1 else 0)
    ensures SkipCount(skips + [k], e) == SkipCount(skips, e) + (if k.parent == e then 1 else 0)
  {
    assert (intents + [i])[..|intents|] == intents && (skips + [k])[..|skips|] == skips;
  }

  /** Each lot gets exactly one intent or one skip: no entry is planned twice, and none is forgotten. */
  lemma {:induction false} EveryLotIsDecidedOnce(lots: seq<Lot>, sellable: map<Symbol, int>, e: EntryId)
    ensures IntentCount(Intents(lots, sellable), e) + SkipCount(Skips(lots, sellable), e) == LotCount(lots, e)
  {
    if lots != [] {
      var n := |lots| - 1;
      EveryLotIsDecidedOnce(lots[..n], sellable, e);
      DecideLot(lots, sellable);
      CountNext(Intents(lots[..n], sellable), Intent(lots[n].entry, lots[n].symbol, Share(lots, sellable)),
                Skips(lots[..n], sellable), Skip(lots[n].entry, lots[n].symbol), e);
    }
  }

  /** No intent is empty, and none exceeds the lot it sells. */
  lemma {:induction false} IntentsStayInsideLots(lots: seq<Lot>, sellable: map<Symbol, int>, k: nat)
    requires k < |Intents(lots, sellable)|
    ensures var i := Intents(lots, sellable)[k];
            i.qty > 0 && exists lot | lot in lots :: lot.entry == i.parent && lot.symbol == i.symbol && i.qty <= lot.qty
  {
    var n := |lots| - 1;
    if k < |Intents(lots[..n], sellable)| {
      IntentsStayInsideLots(lots[..n], sellable, k);
    } else {
      assert lots[n] in lots;
    }
  }

  /** What the loop still has to give: everything sellable less what the lots so far took. */
  ghost predicate IsLeftOver(left: map<Symbol, int>, lots: seq<Lot>, sellable: map<Symbol, int>) {
    forall s :: Ceiling(left, s) == Ceiling(sellable, s) - Sellable(lots, sellable, s)
  }

  lemma TakeShare(lots: seq<Lot>, left: map<Symbol, int>, sellable: map<Symbol, int>)
    requires lots != [] && IsLeftOver(left, lots[..|lots| - 1], sellable)
    ensures var lot := lots[|lots| - 1];
            var qty := Min(lot.qty, Available(left, lot.symbol));
            && Share(lots, sellable) == (if qty > 0 then qty else 0)
            && IsLeftOver(left[lot.symbol := Available(left, lot.symbol) - qty], lots, sellable)
  {
    var lot := lots[|lots| - 1];
    assert Ceiling(left, lot.symbol) ==
        Ceiling(sellable, lot.symbol) - Sellable(lots[..|lots| - 1], sellable, lot.symbol);
    var now := left[lot.symbol := Available(left, lot.symbol) - Min(lot.qty, Available(left, lot.symbol))];
    forall s
      ensures Ceiling(now, s) == Ceiling(sellable, s) - Sellable(lots, sellable, s)
    {
      assert Ceiling(left, s) == Ceiling(sellable, s) - Sellable(lots[..|lots| - 1], sellable, s);
    }
  }

  lemma TakeNext(lots: seq<Lot>, i: nat)
    requires i < |lots|
    ensures lots[..i + 1] == lots[..i] + [lots[i]]
  {
  }

  /** Where the planning loop stands after `lots`. */
  ghost predicate IsPlanned(lots: seq<Lot>, sellable: map<Symbol, int>, left: map<Symbol, int>, intents: seq<Intent>,
      skips: seq<Skip>) {
    intents == Intents(lots, sellable) && skips == Skips(lots, sellable) && IsLeftOver(left, lots, sellable)
  }

  /** One turn of the planning loop. */
  lemma PlanStep(lots: seq<Lot>, lot: Lot, sellable: map<Symbol, int>, left: map<Symbol, int>, intents: seq<Intent>,
      skips: seq<Skip>, qty: int)
    requires IsPlanned(lots, sellable, left, intents, skips) && qty == Min(lot.qty, Available(left, lot.symbol))
    ensures qty <= 0 ==> IsPlanned(lots + [lot], sellable, left[lot.symbol := Available(left, lot.symbol) - qty],
                                   intents, skips + [Skip(lot.entry, lot.symbol)])
    ensures qty > 0 ==> IsPlanned(lots + [lot], sellable, left[lot.symbol := Available(left, lot.symbol) - qty],
                                  intents + [Intent(lot.entry, lot.symbol, qty)], skips)
  {
    assert (lots + [lot])[..|lots|] == lots;
    TakeShare(lots + [lot], left, sellable);
    DecideLot(lots + [lot], sellable);
  }

  /** What the broker reports as sellable; a symbol reported twice counts as reported last. */
  method ReadSellable(positions: seq<Position>) returns (sellable: map<Symbol, int>)
    ensures sellable == SellableOf(positions)
  {
    sellable := map[];
    for i := 0 to |positions|
      invariant sellable == SellableOf(positions[..i])
    {
      sellable := sellable[positions[i].symbol := positions[i].sellable];
      assert positions[..i + 1][..i] == positions[..i];
    }
    assert positions[..|positions|] == positions;
  }

  /** The planning loop over the lots in order. */
  method PlanExits(lots: seq<Lot>, positions: seq<Position>) returns (intents: seq<Intent>, skips: seq<Skip>)
    ensures intents == Intents(lots, SellableOf(positions)) && skips == Skips(lots, SellableOf(positions))
  {
    var sellable := ReadSellable(positions);
    ghost var initial := sellable;
    intents, skips := [], [];
    for i := 0 to |lots|
      invariant IsPlanned(lots[..i], initial, sellable, intents, skips)
    {
      var lot := lots[i];
      var available := Available(sellable, lot.symbol);
      var qty := Min(lot.qty, available);
      PlanStep(lots[..i], lot, initial, sellable, intents, skips, qty);
      TakeNext(lots, i);
      sellable := sellable[lot.symbol := available - qty];
      if qty <= 0 {
        skips := skips + [Skip(lot.entry, lot.symbol)];
        assert IsPlanned(lots[..i + 1], initial, sellable, intents, skips);
      } else {
        intents := intents + [Intent(lot.entry, lot.symbol, qty)];
        assert IsPlanned(lots[..i + 1], initial, sellable, intents, skips);
      }
    }
    assert lots[..|lots|] == lots;
  }

  // ---- The report -----------------------------------------------------------------------------------------------

  /** The journal's state of today's exit of one entry. */
  datatype ExitState = ExitState(intent: Intent, status: OrderJournal.IntentStatus, filled: nat)

  type Exits = map<EntryId, ExitState>

  predicate SentOk(st: ExitState) {
    st.status.Acked? || st.status.Filled?
  }

  function SoldOf(exits: Exits, e: EntryId): nat {
    if e !in exits then 0 else if SentOk(exits[e]) then exits[e].intent.qty else exits[e].filled
  }

  function Shortfall(lots: seq<Lot>, exits: Exits): int {
    if lots == [] then 0
    else Shortfall(lots[..|lots| - 1], exits) + lots[|lots| - 1].qty - SoldOf(exits, lots[|lots| - 1].entry)
  }

  /** `skipped` is the number of lots the plan skipped. */
  datatype Report = Report(complete: bool, shortfall: int, lots: nat, acked: nat, rejected: nat, unknown: nat,
      skipped: nat)

  /** What an exit counts as: everything that was neither sent, rejected, unknown nor skipped counts as not sent. */
  datatype Tallied = AsAcked | AsRejected | AsUnknown | AsSkipped | AsNotSent

  function TalliedAs(states: Exits, e: EntryId): Tallied {
    if e !in states then AsNotSent
    else
      match states[e].status
      case Acked => AsAcked
      case Filled => AsAcked
      case Rejected => AsRejected
      case Unknown => AsUnknown
      case Skipped => AsSkipped
      case _ => AsNotSent
  }

  function TallyOf(states: Exits, ids: seq<EntryId>, kind: Tallied): nat {
    if ids == [] then 0
    else TallyOf(states, ids[..|ids| - 1], kind) + (if TalliedAs(states, ids[|ids| - 1]) == kind then 1 else 0)
  }

  /** A status that keeps a report from being complete. */
  predicate Blocks(states: Exits, e: EntryId) {
    e !in states || !(SentOk(states[e]) || states[e].status.Skipped?)
  }

  lemma TallyNext(states: Exits, ids: seq<EntryId>, i: nat, kind: Tallied)
    requires i < |ids|
    ensures TallyOf(states, ids[..i + 1], kind) ==
            TallyOf(states, ids[..i], kind) + (if TalliedAs(states, ids[i]) == kind then 1 else 0)
  {
    assert ids[..i + 1][..i] == ids[..i];
  }

  /** `_entry_counts`: every exit is counted exactly once. */
  method CountExits(ids: seq<EntryId>, states: Exits)
    returns (acked: nat, rejected: nat, unknown: nat, notSent: nat, skipped: nat)
    ensures acked == TallyOf(states, ids, AsAcked) && rejected == TallyOf(states, ids, AsRejected)
    ensures unknown == TallyOf(states, ids, AsUnknown) && notSent == TallyOf(states, ids, AsNotSent)
    ensures skipped == TallyOf(states, ids, AsSkipped)
    ensures acked + rejected + unknown + notSent + skipped == |ids|
    ensures rejected == 0 && unknown == 0 && notSent == 0 <==> forall i | 0 <= i < |ids| :: !Blocks(states, ids[i])
  {
    acked, rejected, unknown, notSent, skipped := 0, 0, 0, 0, 0;
    for i := 0 to |ids|
      invariant acked == TallyOf(states, ids[..i], AsAcked) && rejected == TallyOf(states, ids[..i], AsRejected)
      invariant unknown == TallyOf(states, ids[..i], AsUnknown) && notSent == TallyOf(states, ids[..i], AsNotSent)
      invariant skipped == TallyOf(states, ids[..i], AsSkipped)
      invariant acked + rejected + unknown + notSent + skipped == i
      invariant rejected == 0 && unknown == 0 && notSent == 0 <==> forall j | 0 <= j < i :: !Blocks(states, ids[j])
    {
      var e := ids[i];
      TallyNext(states, ids, i, AsAcked);
      TallyNext(states, ids, i, AsRejected);
      TallyNext(states, ids, i, AsUnknown);
      TallyNext(states, ids, i, AsNotSent);
      TallyNext(states, ids, i, AsSkipped);
      if e !in states {
        notSent := notSent + 1;
      } else if SentOk(states[e]) {
        acked := acked + 1;
      } else if states[e].status.Rejected? {
        rejected := rejected + 1;
      } else if states[e].status.Unknown? {
        unknown := unknown + 1;
      } else if states[e].status.Skipped? {
        skipped := skipped + 1;
      } else {
        notSent := notSent + 1;
      }
    }
    assert ids[..|ids|] == ids;
  }

  /** Today's exits are a plan for these lots, as the journal admits it: one exit per lot, never overfilled. */
  predicate IsPlanFor(exits: Exits, lots: seq<Lot>) {
    && (forall i, j | 0 <= i < j < |lots| :: lots[i].entry != lots[j].entry)
    && (forall e | e in exits :: exists i | 0 <= i < |lots| :: lots[i].entry == e)
    && (forall i | 0 <= i < |lots| && lots[i].entry in exits ::
          exits[lots[i].entry].filled <= exits[lots[i].entry].intent.qty <= lots[i].qty)
    && (forall e | e in exits && exits[e].status.Skipped? :: exits[e].filled == 0)
  }

  predicate FullySent(exits: Exits, lot: Lot) {
    lot.entry in exits && SentOk(exits[lot.entry]) && exits[lot.entry].intent.qty == lot.qty
  }

  lemma {:induction false} ShortfallIsNonNegative(lots: seq<Lot>, exits: Exits)
    requires forall i | 0 <= i < |lots| :: SoldOf(exits, lots[i].entry) <= lots[i].qty
    ensures Shortfall(lots, exits) >= 0
    ensures Shortfall(lots, exits) == 0 <==> forall i | 0 <= i < |lots| :: SoldOf(exits, lots[i].entry) == lots[i].qty
  {
    if lots != [] {
      var n := |lots| - 1;
      ShortfallIsNonNegative(lots[..n], exits);
      assert forall i | 0 <= i < n :: lots[..n][i] == lots[i];
    }
  }

  lemma NothingOwedIffSent(lots: seq<Lot>, exits: Exits)
    requires IsPlanFor(exits, lots) && forall i | 0 <= i < |lots| :: lots[i].qty > 0
    ensures (Shortfall(lots, exits) == 0 && forall e | e in exits :: !Blocks(exits, e))
            <==> forall i | 0 <= i < |lots| :: FullySent(exits, lots[i])
  {
    forall i | 0 <= i < |lots|
      ensures SoldOf(exits, lots[i].entry) <= lots[i].qty
      ensures FullySent(exits, lots[i]) ==> SoldOf(exits, lots[i].entry) == lots[i].qty && !Blocks(exits, lots[i].entry)
      ensures SoldOf(exits, lots[i].entry) == lots[i].qty && !Blocks(exits, lots[i].entry) ==> FullySent(exits, lots[i])
    {
    }
    ShortfallIsNonNegative(lots, exits);
    assert forall i | 0 <= i < |lots| && lots[i].entry !in exits :: SoldOf(exits, lots[i].entry) == 0;
  }

  /** The journal states of the exits of this plan. */
  function Mine(states: Exits, ids: seq<EntryId>): Exits {
    map e | e in states && e in ids :: states[e]
  }

  /** The lots are what was planned over: each holds shares, each exit is of a lot and within it. */
  predicate Planned(lots: seq<Lot>, ids: seq<EntryId>, states: Exits) {
    && IsPlanFor(Mine(states, ids), lots)
    && (forall i | 0 <= i < |lots| :: lots[i].qty > 0)
    && forall i | 0 <= i < |ids| :: exists k | 0 <= k < |lots| :: lots[k].entry == ids[i]
  }

  /** A report is complete exactly when every lot has an exit and its whole quantity was acknowledged or filled. */
  lemma CompleteIffEveryLotIsSent(lots: seq<Lot>, ids: seq<EntryId>, states: Exits)
    requires Planned(lots, ids, states)
    ensures (Shortfall(lots, Mine(states, ids)) == 0 && forall i | 0 <= i < |ids| :: !Blocks(states, ids[i]))
            <==> forall i | 0 <= i < |lots| :: lots[i].entry in ids && FullySent(states, lots[i])
  {
    var mine := Mine(states, ids);
    NothingOwedIffSent(lots, mine);
    assert forall i | 0 <= i < |lots| ::
        FullySent(mine, lots[i]) <==> lots[i].entry in ids && FullySent(states, lots[i]);
    if forall i | 0 <= i < |lots| :: FullySent(mine, lots[i]) {
      forall i | 0 <= i < |ids|
        ensures !Blocks(states, ids[i])
      {
        var k :| 0 <= k < |lots| && lots[k].entry == ids[i];
        assert FullySent(mine, lots[k]);
      }
    }
  }

  /** `_finish_exit_report` over the journal states of the exits that were planned and the lots that were skipped. */
  method FinishExitReport(lots: seq<Lot>, ids: seq<EntryId>, states: Exits, planSkips: nat) returns (report: Report)
    ensures report.shortfall == Shortfall(lots, Mine(states, ids))
    ensures report.lots == |lots| && report.skipped == planSkips
    ensures report.acked == TallyOf(states, ids, AsAcked) && report.rejected == TallyOf(states, ids, AsRejected)
    ensures report.unknown == TallyOf(states, ids, AsUnknown)
    ensures report.complete <==> report.shortfall == 0 && forall i | 0 <= i < |ids| :: !Blocks(states, ids[i])
    ensures Planned(lots, ids, states) ==>
              (report.complete <==> forall i | 0 <= i < |lots| :: lots[i].entry in ids && FullySent(states, lots[i]))
  {
    var sold: map<EntryId, nat> := map[];
    for i := 0 to |ids|
      invariant sold.Keys == set e | e in states && e in ids[..i]
      invariant forall e | e in sold :: sold[e] == SoldOf(states, e)
    {
      var e := ids[i];
      assert ids[..i + 1] == ids[..i] + [e];
      if e in states {
        sold := sold[e := if SentOk(states[e]) then states[e].intent.qty else states[e].filled];
      }
    }
    ghost var mine := Mine(states, ids);
    assert ids[..|ids|] == ids;
    assert forall e :: SoldOf(mine, e) == if e in sold then sold[e] else 0;
    var shortfall: int := 0;
    for i := 0 to |lots|
      invariant shortfall == Shortfall(lots[..i], mine)
    {
      assert lots[..i + 1][..i] == lots[..i];
      shortfall := shortfall + lots[i].qty - (if lots[i].entry in sold then sold[lots[i].entry] else 0);
    }
    assert lots[..|lots|] == lots;
    var acked, rejected, unknown, notSent, _ := CountExits(ids, states);
    var complete := shortfall == 0 && rejected == 0 && unknown == 0 && notSent == 0;
    if Planned(lots, ids, states) {
      CompleteIffEveryLotIsSent(lots, ids, states);
    }
    return Report(complete, shortfall, |lots|, acked, rejected, unknown, planSkips);
  }

  // ---- Reruns ---------------------------------------------------------------------------------------------------

  /** The entries of the journal: shares bought, and shares sold by exits of earlier days. */
  datatype Bought = Bought(entry: EntryId, symbol: Symbol, filled: nat, soldBefore: nat)

  function FilledToday(exits: Exits, e: EntryId): nat {
    if e in exits then exits[e].filled else 0
  }

  /** `open_lots`: entries with a positive unsold quantity, net of today's fills. */
  function OpenLots(bought: seq<Bought>, exits: Exits): seq<Lot> {
    if bought == [] then []
    else
      var b := bought[|bought| - 1];
      var qty := b.filled - b.soldBefore - FilledToday(exits, b.entry);
      OpenLots(bought[..|bought| - 1], exits) + (if qty > 0 then [Lot(b.entry, b.symbol, qty)] else [])
  }

  /** A rerun recovers the planned lots by adding today's fills back to what is open. */
  function PlannedLots(open: seq<Lot>, exits: Exits): seq<Lot> {
    seq(|open|, i requires 0 <= i < |open| => open[i].(qty := open[i].qty + FilledToday(exits, open[i].entry)))
  }

  /** The same exits later on: fills only grow, up to the ordered quantity. */
  predicate Progressed(exits: Exits, later: Exits) {
    && exits.Keys == later.Keys
    && forall e | e in exits ::
        exits[e].intent == later[e].intent && exits[e].filled <= later[e].filled <= later[e].intent.qty
  }

  /** Exits were planned for the lots open before any exit of today, and within them. */
  predicate WithinBought(bought: seq<Bought>, exits: Exits) {
    && (forall i | 0 <= i < |bought| && bought[i].entry in exits ::
          exits[bought[i].entry].intent.qty <= bought[i].filled - bought[i].soldBefore)
    && forall i | 0 <= i < |bought| :: bought[i].soldBefore <= bought[i].filled
  }

  /**
   * A rerun accounts for the shortfall of the original plan: lots that were sold out since have dropped out of the open
   * lots, and would have contributed nothing. `exits` is what the rerun read first, `later` what it reports on.
   */
  lemma {:induction false} RerunReportsTheSameShortfall(bought: seq<Bought>, exits: Exits, later: Exits)
    requires WithinBought(bought, exits) && Progressed(exits, later)
    ensures Shortfall(PlannedLots(OpenLots(bought, exits), exits), later) == Shortfall(OpenLots(bought, map[]), later)
  {
    if bought != [] {
      var n := |bought| - 1;
      WithinPrefix(bought, exits);
      RerunReportsTheSameShortfall(bought[..n], exits, later);
      FirstRunNext(bought, later);
      RerunNext(bought, exits, later);
      SoldOutOwesNothing(bought[n], exits, later);
    }
  }

  lemma WithinPrefix(bought: seq<Bought>, exits: Exits)
    requires bought != [] && WithinBought(bought, exits)
    ensures WithinBought(bought[..|bought| - 1], exits)
    ensures var b := bought[|bought| - 1];
            b.soldBefore <= b.filled && (b.entry in exits ==> exits[b.entry].intent.qty <= b.filled - b.soldBefore)
  {
  }

  /** A lot with nothing left open is one whose exit was filled to the last share. */
  lemma SoldOutOwesNothing(b: Bought, exits: Exits, later: Exits)
    requires Progressed(exits, later) && b.soldBefore <= b.filled
    requires b.entry in exits ==> exits[b.entry].intent.qty <= b.filled - b.soldBefore
    ensures FilledToday(exits, b.entry) <= b.filled - b.soldBefore
    ensures b.filled - b.soldBefore == FilledToday(exits, b.entry) && b.filled > b.soldBefore ==>
            SoldOf(later, b.entry) == b.filled - b.soldBefore
  {
  }

  lemma FirstRunNext(bought: seq<Bought>, later: Exits)
    requires bought != []
    ensures var b := bought[|bought| - 1];
            Shortfall(OpenLots(bought, map[]), later)
            == Shortfall(OpenLots(bought[..|bought| - 1], map[]), later)
               + (if b.filled > b.soldBefore then b.filled - b.soldBefore - SoldOf(later, b.entry) else 0)
  {
    var b := bought[|bought| - 1];
    var before := OpenLots(bought[..|bought| - 1], map[]);
    if b.filled > b.soldBefore {
      ShortfallNext(before, Lot(b.entry, b.symbol, b.filled - b.soldBefore), later);
    } else {
      assert before + [] == before;
    }
  }

  lemma RerunNext(bought: seq<Bought>, exits: Exits, later: Exits)
    requires bought != []
    ensures var b := bought[|bought| - 1];
            Shortfall(PlannedLots(OpenLots(bought, exits), exits), later)
            == Shortfall(PlannedLots(OpenLots(bought[..|bought| - 1], exits), exits), later)
               + (if b.filled - b.soldBefore > FilledToday(exits, b.entry)
                   then b.filled - b.soldBefore - SoldOf(later, b.entry) else 0)
  {
    var b := bought[|bought| - 1];
    var before := OpenLots(bought[..|bought| - 1], exits);
    var left := b.filled - b.soldBefore - FilledToday(exits, b.entry);
    if left > 0 {
      PlannedNext(before, Lot(b.entry, b.symbol, left), exits);
      ShortfallNext(PlannedLots(before, exits), Lot(b.entry, b.symbol, b.filled - b.soldBefore), later);
    } else {
      assert before + [] == before;
    }
  }

  lemma ShortfallNext(lots: seq<Lot>, lot: Lot, exits: Exits)
    ensures Shortfall(lots + [lot], exits) == Shortfall(lots, exits) + lot.qty - SoldOf(exits, lot.entry)
  {
    assert (lots + [lot])[..|lots|] == lots;
  }

  lemma PlannedNext(open: seq<Lot>, lot: Lot, exits: Exits)
    ensures PlannedLots(open + [lot], exits) ==
            PlannedLots(open, exits) + [lot.(qty := lot.qty + FilledToday(exits, lot.entry))]
  {
  }
}
