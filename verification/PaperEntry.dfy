/**
 * Paper entry at the closing auction (src/daily/paper_trade.py over src/execution/paper_broker.py): sizing, fills in
 * rank order out of the remaining cash, one order row per pick, and the cash that the ledger shows afterwards.
 * Amounts are whole won; the brokerage rate and allocations are reals.
 */
module PaperEntry {
  import opened Common
  import opened PaperBroker

  /** One pick; `close` is 0 when the decision price is missing, `pred` is None when it is missing or not a number. */
  datatype Pick = Pick(symbol: Symbol, close: int, allocation: real, pred: Option<real>)

  datatype Order = Order(symbol: Symbol, qty: nat)

  /** The closing row of the archive snapshot. */
  datatype Close = Close(confirmed: bool, price: int, at: Time)

  datatype EntryError = BadAllocation | BadClose | Lookahead | FillExists

  predicate Distinct(picks: seq<Pick>) {
    forall i, j | 0 <= i < j < |picks| :: picks[i].symbol != picks[j].symbol
  }

  // ---- Sizing ----------------------------------------------------------------------------------------------------

  /** `build_entry_orders` raises on an allocation that is not positive. */
  predicate Sizable(picks: seq<Pick>) {
    forall i | 0 <= i < |picks| :: picks[i].close > 0 ==> picks[i].allocation > 0.0
  }

  function OrderFor(p: Pick, capital: nat, t: Terms): Option<Order>
    requires ValidTerms(t) && (p.close > 0 ==> p.allocation > 0.0)
  {
    if p.close <= 0 then None
    else
      var qty := Qty(capital, p.allocation, SizingPrice(p.close, t));
      if qty == 0 then None else Some(Order(p.symbol, qty))
  }

  function EntryOrders(picks: seq<Pick>, capital: nat, t: Terms): seq<Order>
    requires ValidTerms(t) && Sizable(picks)
  {
    if picks == [] then []
    else
      var order := OrderFor(picks[|picks| - 1], capital, t);
      EntryOrders(picks[..|picks| - 1], capital, t) + (if order.Some? then [order.value] else [])
  }

  function Unsized(picks: seq<Pick>, capital: nat, t: Terms): seq<Symbol>
    requires ValidTerms(t) && Sizable(picks)
  {
    if picks == [] then []
    else
      Unsized(picks[..|picks| - 1], capital, t)
      + (if OrderFor(picks[|picks| - 1], capital, t).None? then [picks[|picks| - 1].symbol] else [])
  }

  // ---- Rank order ------------------------------------------------------------------------------------------------

  type Preds = map<Symbol, Option<real>>

  function PredsOf(picks: seq<Pick>): Preds {
    if picks == [] then map[] else PredsOf(picks[..|picks| - 1])[picks[|picks| - 1].symbol := picks[|picks| - 1].pred]
  }

  /** Higher prediction first, missing predictions last, then by symbol. */
  predicate Precedes(a: Symbol, b: Symbol, preds: Preds) {
    var x, y := if a in preds then preds[a] else None, if b in preds then preds[b] else None;
    match (x, y)
    case (Some(p), Some(q)) => p > q || (p == q && a < b)
    case (Some(_), None) => true
    case (None, Some(_)) => false
    case (None, None) => a < b
  }

  function Insert(orders: seq<Order>, o: Order, preds: Preds): seq<Order> {
    if orders == [] || Precedes(orders[|orders| - 1].symbol, o.symbol, preds) then orders + [o]
    else Insert(orders[..|orders| - 1], o, preds) + [orders[|orders| - 1]]
  }

  function Ranked(orders: seq<Order>, preds: Preds): seq<Order> {
    if orders == [] then [] else Insert(Ranked(orders[..|orders| - 1], preds), orders[|orders| - 1], preds)
  }

  predicate InRankOrder(orders: seq<Order>, preds: Preds) {
    forall i, j | 0 <= i < j < |orders| :: Precedes(orders[i].symbol, orders[j].symbol, preds)
  }

  predicate DistinctOrders(orders: seq<Order>) {
    forall i, j | 0 <= i < j < |orders| :: orders[i].symbol != orders[j].symbol
  }

  lemma {:induction false} InsertAdds(orders: seq<Order>, o: Order, preds: Preds)
    ensures multiset(Insert(orders, o, preds)) == multiset(orders) + multiset{o}
    ensures forall x :: x in Insert(orders, o, preds) <==> x in orders || x == o
  {
    if orders != [] && !Precedes(orders[|orders| - 1].symbol, o.symbol, preds) {
      var n := |orders| - 1;
      InsertAdds(orders[..n], o, preds);
      assert orders == orders[..n] + [orders[n]];
    }
  }

  lemma PrecedesIsTransitive(a: Symbol, b: Symbol, c: Symbol, preds: Preds)
    requires Precedes(a, b, preds) && Precedes(b, c, preds)
    ensures Precedes(a, c, preds)
  {
  }

  lemma RankAppend(orders: seq<Order>, last: Order, preds: Preds)
    requires InRankOrder(orders, preds) && forall x | x in orders :: Precedes(x.symbol, last.symbol, preds)
    ensures InRankOrder(orders + [last], preds)
  {
    assert forall i | 0 <= i < |orders| :: orders[i] in orders;
  }

  lemma LastRanked(orders: seq<Order>, preds: Preds, x: Order)
    requires InRankOrder(orders, preds) && x in orders && x != orders[|orders| - 1]
    ensures Precedes(x.symbol, orders[|orders| - 1].symbol, preds)
  {
  }

  lemma {:induction false} InsertKeepsRank(orders: seq<Order>, o: Order, preds: Preds)
    requires InRankOrder(orders, preds) && forall x | x in orders :: x.symbol != o.symbol
    ensures InRankOrder(Insert(orders, o, preds), preds)
  {
    if orders == [] {
    } else {
      var n := |orders| - 1;
      var last := orders[n];
      assert last in orders;
      if Precedes(last.symbol, o.symbol, preds) {
        forall x | x in orders
          ensures Precedes(x.symbol, o.symbol, preds)
        {
          if x != last {
            LastRanked(orders, preds, x);
            PrecedesIsTransitive(x.symbol, last.symbol, o.symbol, preds);
          }
        }
        RankAppend(orders, o, preds);
      } else {
        InsertKeepsRank(orders[..n], o, preds);
        InsertAdds(orders[..n], o, preds);
        assert Precedes(o.symbol, last.symbol, preds);
        assert forall x | x in orders[..n] :: Precedes(x.symbol, last.symbol, preds);
        RankAppend(Insert(orders[..n], o, preds), last, preds);
      }
    }
  }

  /** Ranking is a permutation of the orders, in rank order. */
  lemma {:induction false} RankedIsSorted(orders: seq<Order>, preds: Preds)
    requires DistinctOrders(orders)
    ensures InRankOrder(Ranked(orders, preds), preds) && multiset(Ranked(orders, preds)) == multiset(orders)
  {
    if orders != [] {
      var n := |orders| - 1;
      RankedIsSorted(orders[..n], preds);
      assert orders == orders[..n] + [orders[n]];
      forall x | x in Ranked(orders[..n], preds)
        ensures x.symbol != orders[n].symbol
      {
        assert x in multiset(orders[..n]);
      }
      InsertKeepsRank(Ranked(orders[..n], preds), orders[n], preds);
      InsertAdds(Ranked(orders[..n], preds), orders[n], preds);
    }
  }

  // ---- Settlement ------------------------------------------------------------------------------------------------

  type Closes = map<Symbol, Close>

  predicate Confirmed(o: Order, closes: Closes) {
    o.symbol in closes && closes[o.symbol].confirmed
  }

  /** A confirmed close that the fill oracle refuses: not a price, or printed before the order was placed. */
  function FillError(o: Order, closes: Closes, placedAt: Time): Option<EntryError> {
    if !Confirmed(o, closes) then None
    else if closes[o.symbol].price <= 0 then Some(BadClose)
    else if closes[o.symbol].at < placedAt then Some(Lookahead)
    else None
  }

  predicate Executable(orders: seq<Order>, closes: Closes, placedAt: Time) {
    forall i | 0 <= i < |orders| :: FillError(orders[i], closes, placedAt).None?
  }

  /** Won that a filled order takes. */
  function Charge(o: Order, closes: Closes, t: Terms): nat {
    if Confirmed(o, closes) && closes[o.symbol].price >= 0 then Cost(o.qty, closes[o.symbol].price, t) else 0
  }

  function Verdict(o: Order, closes: Closes, left: int, t: Terms): Outcome {
    if o.symbol !in closes then NoSnapshotRow
    else if !closes[o.symbol].confirmed then Unconfirmed
    else if Charge(o, closes, t) > left then InsufficientCash
    else Filled
  }

  function Spent(orders: seq<Order>, outcomes: seq<Outcome>, closes: Closes, t: Terms): nat
    requires |orders| == |outcomes|
  {
    if orders == [] then 0
    else
      var n := |orders| - 1;
      Spent(orders[..n], outcomes[..n], closes, t) + (if outcomes[n].Filled? then Charge(orders[n], closes, t) else 0)
  }

  /** Each order in turn is judged against the cash that the filled orders before it have left. */
  predicate Settles(orders: seq<Order>, outcomes: seq<Outcome>, closes: Closes, cash: int, t: Terms) {
    |outcomes| == |orders| &&
    (orders == [] ||
     var n := |orders| - 1;
     && Settles(orders[..n], outcomes[..n], closes, cash, t)
     && outcomes[n] == Verdict(orders[n], closes, cash - Spent(orders[..n], outcomes[..n], closes, t), t))
  }

  function Fills(orders: seq<Order>, outcomes: seq<Outcome>, closes: Closes, day: Day): seq<Fill>
    requires |orders| == |outcomes|
  {
    if orders == [] then []
    else
      var n := |orders| - 1;
      Fills(orders[..n], outcomes[..n], closes, day) + FillOf(orders[n], outcomes[n], closes, day)
  }

  function FillOf(o: Order, outcome: Outcome, closes: Closes, day: Day): seq<Fill> {
    if outcome.Filled? && Confirmed(o, closes) && closes[o.symbol].price >= 0
    then [Buy(EntryId(day, o.symbol), o.qty, closes[o.symbol].price)] else []
  }

  /** Where the fill loop stands after `orders`. */
  ghost predicate IsSettled(orders: seq<Order>, outcomes: seq<Outcome>, fills: seq<Fill>, remaining: int,
      closes: Closes, cash: int, day: Day, t: Terms) {
    && Settles(orders, outcomes, closes, cash, t) && fills == Fills(orders, outcomes, closes, day)
    && remaining == cash - Spent(orders, outcomes, closes, t) && (fills != [] ==> remaining >= 0)
  }

  lemma SettleStep(orders: seq<Order>, outcomes: seq<Outcome>, fills: seq<Fill>, remaining: int,
      o: Order, outcome: Outcome, closes: Closes, cash: int, day: Day, t: Terms)
    requires IsSettled(orders, outcomes, fills, remaining, closes, cash, day, t)
    requires outcome == Verdict(o, closes, remaining, t)
    requires Confirmed(o, closes) ==> closes[o.symbol].price > 0
    ensures !outcome.Filled? ==> IsSettled(orders + [o], outcomes + [outcome], fills, remaining, closes, cash, day, t)
    ensures outcome.Filled? ==> Confirmed(o, closes)
    ensures outcome.Filled? ==>
              IsSettled(orders + [o], outcomes + [outcome],
                fills + [Buy(EntryId(day, o.symbol), o.qty, closes[o.symbol].price)],
                        remaining - Charge(o, closes, t), closes, cash, day, t)
  {
    assert (orders + [o])[..|orders|] == orders && (outcomes + [outcome])[..|outcomes|] == outcomes;
    assert fills + [] == fills;
  }

  lemma TakeNext(orders: seq<Order>, i: nat)
    requires i < |orders|
    ensures orders[..i + 1] == orders[..i] + [orders[i]]
  {
  }

  /** One turn of the fill loop: an error of the fill oracle, or the order's outcome with its fill and charge. */
  method SettleOne(order: Order, ghost done: seq<Order>, ghost outcomes: seq<Outcome>, fills: seq<Fill>,
      remaining: int, closes: Closes, placedAt: Time, ghost cash: int, day: Day, t: Terms)
    returns (error: Option<EntryError>, outcome: Outcome, nowFills: seq<Fill>, nowRemaining: int)
    requires IsSettled(done, outcomes, fills, remaining, closes, cash, day, t)
    ensures error == FillError(order, closes, placedAt)
    ensures error.None? ==>
            IsSettled(done + [order], outcomes + [outcome], nowFills, nowRemaining, closes, cash, day, t)
  {
    error := FillError(order, closes, placedAt);
    outcome, nowFills, nowRemaining := Verdict(order, closes, remaining, t), fills, remaining;
    if error.Some? {
      return;
    }
    SettleStep(done, outcomes, fills, remaining, order, outcome, closes, cash, day, t);
    if outcome.Filled? {
      nowRemaining := remaining - Charge(order, closes, t);
      nowFills := fills + [Buy(EntryId(day, order.symbol), order.qty, closes[order.symbol].price)];
    }
  }

  /** The fill loop over ranked orders. */
  method Settle(orders: seq<Order>, closes: Closes, placedAt: Time, cash: int, day: Day, t: Terms)
    returns (r: Result<seq<Fill>, EntryError>, outcomes: seq<Outcome>, remaining: int)
    ensures r.Ok? <==> Executable(orders, closes, placedAt)
    ensures r.Ok? ==> IsSettled(orders, outcomes, r.value, remaining, closes, cash, day, t)
  {
    var fills: seq<Fill> := [];
    outcomes, remaining := [], cash;
    ghost var done: seq<Order> := [];
    for i := 0 to |orders|
      invariant done == orders[..i] && forall j | 0 <= j < i :: FillError(orders[j], closes, placedAt).None?
      invariant IsSettled(done, outcomes, fills, remaining, closes, cash, day, t)
    {
      var error, outcome;
      TakeNext(orders, i);
      error, outcome, fills, remaining :=
        SettleOne(orders[i], done, outcomes, fills, remaining, closes, placedAt, cash, day, t);
      done := done + [orders[i]];
      if error.Some? {
        return Err(error.value), outcomes, remaining;
      }
      outcomes := outcomes + [outcome];
    }
    assert done == orders;
    return Ok(fills), outcomes, remaining;
  }

  /** An order lacks cash exactly when it costs more than the better ranked fills have left. */
  lemma {:induction false} InsufficientIff(orders: seq<Order>, outcomes: seq<Outcome>, closes: Closes, cash: int,
      t: Terms, i: nat)
    requires Settles(orders, outcomes, closes, cash, t) && i < |orders|
    ensures outcomes[i].InsufficientCash?
            <==> Confirmed(orders[i], closes)
                 && Charge(orders[i], closes, t) > cash - Spent(orders[..i], outcomes[..i], closes, t)
    ensures outcomes[i].Filled?
            <==> Confirmed(orders[i], closes)
                 && Charge(orders[i], closes, t) <= cash - Spent(orders[..i], outcomes[..i], closes, t)
  {
    var n := |orders| - 1;
    if i < n {
      InsufficientIff(orders[..n], outcomes[..n], closes, cash, t, i);
      assert orders[..n][..i] == orders[..i] && outcomes[..n][..i] == outcomes[..i];
    }
  }

  /** Fills are booked in rank order. */
  lemma {:induction false} FillsKeepRank(orders: seq<Order>, outcomes: seq<Outcome>, closes: Closes, day: Day,
      preds: Preds)
    requires |orders| == |outcomes| && InRankOrder(orders, preds)
    ensures forall f | f in Fills(orders, outcomes, closes, day) ::
              exists o | o in orders :: f.id == EntryId(day, o.symbol)
    ensures forall i, j | 0 <= i < j < |Fills(orders, outcomes, closes, day)| ::
              Precedes(Fills(orders, outcomes, closes, day)[i].id.symbol,
                  Fills(orders, outcomes, closes, day)[j].id.symbol, preds)
  {
    if orders != [] {
      var n := |orders| - 1;
      var before := Fills(orders[..n], outcomes[..n], closes, day);
      FillsKeepRank(orders[..n], outcomes[..n], closes, day, preds);
      assert orders == orders[..n] + [orders[n]];
      forall f | f in before
        ensures Precedes(f.id.symbol, orders[n].symbol, preds)
      {
        var o :| o in orders[..n] && f.id == EntryId(day, o.symbol);
      }
      assert forall i | 0 <= i < |before| :: before[i] in before;
    }
  }

  lemma FillsHaveOwnIds(orders: seq<Order>, outcomes: seq<Outcome>, closes: Closes, day: Day, preds: Preds)
    requires |orders| == |outcomes| && InRankOrder(orders, preds)
    ensures DistinctIds(Fills(orders, outcomes, closes, day))
  {
    FillsKeepRank(orders, outcomes, closes, day, preds);
    var fills := Fills(orders, outcomes, closes, day);
    forall i, j | 0 <= i < j < |fills|
      ensures fills[i].id != fills[j].id
    {
      assert Precedes(fills[i].id.symbol, fills[j].id.symbol, preds);
    }
  }

  // ---- Cash of the ledger ----------------------------------------------------------------------------------------

  /** Every filled order has a price the oracle accepted. */
  predicate FilledAtPrice(orders: seq<Order>, outcomes: seq<Outcome>, closes: Closes)
    requires |orders| == |outcomes|
  {
    forall i | 0 <= i < |orders| && outcomes[i].Filled? ::
        Confirmed(orders[i], closes) && closes[orders[i].symbol].price >= 0
  }

  lemma SettledFillsHavePrices(orders: seq<Order>, outcomes: seq<Outcome>, closes: Closes,
      placedAt: Time, cash: int, t: Terms)
    requires Settles(orders, outcomes, closes, cash, t) && Executable(orders, closes, placedAt)
    ensures FilledAtPrice(orders, outcomes, closes)
  {
    forall i | 0 <= i < |orders| && outcomes[i].Filled?
      ensures Confirmed(orders[i], closes) && closes[orders[i].symbol].price >= 0
    {
      InsufficientIff(orders, outcomes, closes, cash, t, i);
      assert FillError(orders[i], closes, placedAt).None?;
    }
  }

  lemma {:induction false} FillsTakeWhatIsSpent(orders: seq<Order>, outcomes: seq<Outcome>, closes: Closes, day: Day,
      t: Terms)
    requires |orders| == |outcomes| && FilledAtPrice(orders, outcomes, closes)
    ensures NavCash(Fills(orders, outcomes, closes, day), t) == t.seed - Spent(orders, outcomes, closes, t)
  {
    if orders != [] {
      var n := |orders| - 1;
      FillsTakeWhatIsSpent(orders[..n], outcomes[..n], closes, day, t);
      OneFillTakesItsCharge(Fills(orders[..n], outcomes[..n], closes, day), orders[n], outcomes[n], closes, day, t);
    }
  }

  lemma OneFillTakesItsCharge(fills: seq<Fill>, o: Order, outcome: Outcome, closes: Closes,
      day: Day, t: Terms)
    requires outcome.Filled? ==> Confirmed(o, closes) && closes[o.symbol].price >= 0
    ensures NavCash(fills + FillOf(o, outcome, closes, day), t)
            == NavCash(fills, t) - if outcome.Filled? then Charge(o, closes, t) else 0
  {
    var next := FillOf(o, outcome, closes, day);
    if outcome.Filled? {
      assert (fills + next)[..|fills|] == fills;
    } else {
      assert fills + next == fills;
    }
  }

  /** The ledger's cash after an entry is what the fill loop had left: no won appears or disappears between the two. */
  lemma LedgerCashIsRemainingCash(before: seq<Fill>, voided: set<OrderId>, orders: seq<Order>,
      outcomes: seq<Outcome>, closes: Closes, day: Day, t: Terms)
    requires |orders| == |outcomes| && FilledAtPrice(orders, outcomes, closes)
    requires forall f | f in Fills(orders, outcomes, closes, day) :: f.id !in voided
    ensures NavCash(Effective(before + Fills(orders, outcomes, closes, day), voided), t)
            == NavCash(Effective(before, voided), t) - Spent(orders, outcomes, closes, t)
  {
    var fills := Fills(orders, outcomes, closes, day);
    EffectiveConcat(before, fills, voided);
    NothingVoided(fills, voided);
    NavCashConcat(Effective(before, voided), fills, t);
    FillsTakeWhatIsSpent(orders, outcomes, closes, day, t);
  }

  // ---- The ledger --------------------------------------------------------------------------------------------------

  function UnsizedRows(unsized: seq<Symbol>, outcome: Outcome): seq<OrderRow> {
    seq(|unsized|, i requires 0 <= i < |unsized| => OrderRow(unsized[i], 0, outcome))
  }

  function OrderRows(orders: seq<Order>, outcomes: seq<Outcome>): seq<OrderRow>
    requires |orders| == |outcomes|
  {
    seq(|orders|, i requires 0 <= i < |orders| => OrderRow(orders[i].symbol, orders[i].qty, outcomes[i]))
  }

  function RowSymbols(rows: seq<OrderRow>): set<Symbol> {
    set r | r in rows :: r.symbol
  }

  function PickSymbols(picks: seq<Pick>): set<Symbol> {
    set p | p in picks :: p.symbol
  }

  function OrderSymbols(orders: seq<Order>): set<Symbol> {
    set o | o in orders :: o.symbol
  }

  /** The rows are one for each pick. */
  predicate OneRowPerPick(rows: seq<OrderRow>, picks: seq<Pick>) {
    && |rows| == |picks| && DistinctRows(rows)
    && RowSymbols(rows) == PickSymbols(picks)
  }

  lemma {:induction false} PicksSplitIntoRows(picks: seq<Pick>, capital: nat, t: Terms)
    requires ValidTerms(t) && Sizable(picks)
    ensures |EntryOrders(picks, capital, t)| + |Unsized(picks, capital, t)| == |picks|
    ensures forall o | o in EntryOrders(picks, capital, t) ::
              exists p | p in picks :: p.symbol == o.symbol && OrderFor(p, capital, t) == Some(o)
    ensures forall s | s in Unsized(picks, capital, t) ::
              exists p | p in picks :: p.symbol == s && OrderFor(p, capital, t).None?
    ensures forall p | p in picks ::
              if OrderFor(p, capital, t).Some? then OrderFor(p, capital, t).value in EntryOrders(picks, capital, t)
              else p.symbol in Unsized(picks, capital, t)
  {
    if picks != [] {
      PicksSplitIntoRows(picks[..|picks| - 1], capital, t);
      assert picks == picks[..|picks| - 1] + [picks[|picks| - 1]];
    }
  }

  predicate DistinctSymbols(symbols: seq<Symbol>) {
    forall i, j | 0 <= i < j < |symbols| :: symbols[i] != symbols[j]
  }

  lemma OrderOrUnsized(picks: seq<Pick>, capital: nat, t: Terms, o: Order)
    requires ValidTerms(t) && Sizable(picks) && Distinct(picks) && o in EntryOrders(picks, capital, t)
    ensures o.symbol !in Unsized(picks, capital, t)
  {
    PicksSplitIntoRows(picks, capital, t);
    var p :| p in picks && p.symbol == o.symbol && OrderFor(p, capital, t) == Some(o);
    forall q | q in picks && q.symbol == o.symbol
      ensures q == p
    {
    }
  }

  lemma {:induction false} OrdersAreDistinct(picks: seq<Pick>, capital: nat, t: Terms)
    requires ValidTerms(t) && Sizable(picks) && Distinct(picks)
    ensures DistinctOrders(EntryOrders(picks, capital, t))
  {
    if picks != [] {
      var n := |picks| - 1;
      OrdersAreDistinct(picks[..n], capital, t);
      PicksSplitIntoRows(picks[..n], capital, t);
      var orders := EntryOrders(picks[..n], capital, t);
      forall i | 0 <= i < |orders|
        ensures orders[i].symbol != picks[n].symbol
      {
        assert orders[i] in orders;
      }
    }
  }

  lemma {:induction false} UnsizedAreDistinct(picks: seq<Pick>, capital: nat, t: Terms)
    requires ValidTerms(t) && Sizable(picks) && Distinct(picks)
    ensures DistinctSymbols(Unsized(picks, capital, t))
  {
    if picks != [] {
      var n := |picks| - 1;
      UnsizedAreDistinct(picks[..n], capital, t);
      PicksSplitIntoRows(picks[..n], capital, t);
      var unsized := Unsized(picks[..n], capital, t);
      forall i | 0 <= i < |unsized|
        ensures unsized[i] != picks[n].symbol
      {
        assert unsized[i] in unsized;
      }
    }
  }

  lemma SplitIsDistinct(picks: seq<Pick>, capital: nat, t: Terms)
    requires ValidTerms(t) && Sizable(picks) && Distinct(picks)
    ensures DistinctOrders(EntryOrders(picks, capital, t)) && DistinctSymbols(Unsized(picks, capital, t))
  {
    OrdersAreDistinct(picks, capital, t);
    UnsizedAreDistinct(picks, capital, t);
  }

  /** Both entry paths leave exactly one row for every pick. */
  lemma EntryRowsAreOnePerPick(picks: seq<Pick>, capital: nat, t: Terms, ranked: seq<Order>,
      unsizedOutcome: Outcome, outcomes: seq<Outcome>, rows: seq<OrderRow>)
    requires ValidTerms(t) && Sizable(picks) && Distinct(picks)
    requires multiset(ranked) == multiset(EntryOrders(picks, capital, t)) && DistinctOrders(ranked)
    requires |outcomes| == |ranked|
    requires rows == UnsizedRows(Unsized(picks, capital, t), unsizedOutcome) + OrderRows(ranked, outcomes)
          || rows == OrderRows(ranked, outcomes) + UnsizedRows(Unsized(picks, capital, t), unsizedOutcome)
    ensures OneRowPerPick(rows, picks)
  {
    var unsized, orders := Unsized(picks, capital, t), EntryOrders(picks, capital, t);
    SplitIsDistinct(picks, capital, t);
    assert |multiset(ranked)| == |ranked| && |multiset(orders)| == |orders|;
    SameMembers(ranked, orders);
    forall o | o in ranked
      ensures o.symbol !in unsized
    {
      OrderOrUnsized(picks, capital, t, o);
    }
    RowsAreDistinct(unsized, unsizedOutcome, ranked, outcomes, rows);
    SymbolsOfRows(unsized, unsizedOutcome, ranked, outcomes, rows);
    RowsCoverPicks(picks, capital, t, ranked);
  }

  lemma SameMembers(a: seq<Order>, b: seq<Order>)
    requires multiset(a) == multiset(b)
    ensures forall o :: o in a <==> o in b
  {
    forall o
      ensures o in a <==> o in b
    {
      assert o in a <==> o in multiset(a);
    }
  }

  lemma RowsCoverPicks(picks: seq<Pick>, capital: nat, t: Terms, ranked: seq<Order>)
    requires ValidTerms(t) && Sizable(picks) && forall o :: o in ranked <==> o in EntryOrders(picks, capital, t)
    ensures (set s | s in Unsized(picks, capital, t)) + OrderSymbols(ranked) == PickSymbols(picks)
    ensures |EntryOrders(picks, capital, t)| + |Unsized(picks, capital, t)| == |picks|
  {
    PicksSplitIntoRows(picks, capital, t);
    forall p | p in picks
      ensures p.symbol in Unsized(picks, capital, t) || exists o | o in ranked :: o.symbol == p.symbol
    {
      assert OrderFor(p, capital, t).Some? ==> OrderFor(p, capital, t).value in ranked;
    }
    forall o | o in ranked
      ensures exists p | p in picks :: p.symbol == o.symbol
    {
      assert o in EntryOrders(picks, capital, t);
    }
    forall s | s in Unsized(picks, capital, t)
      ensures exists p | p in picks :: p.symbol == s
    {
    }
  }

  lemma RowsAreDistinct(unsized: seq<Symbol>, u: Outcome, ranked: seq<Order>,
      outcomes: seq<Outcome>, rows: seq<OrderRow>)
    requires |outcomes| == |ranked| && DistinctSymbols(unsized) && DistinctOrders(ranked)
    requires forall o | o in ranked :: o.symbol !in unsized
    requires || rows == UnsizedRows(unsized, u) + OrderRows(ranked, outcomes)
             || rows == OrderRows(ranked, outcomes) + UnsizedRows(unsized, u)
    ensures DistinctRows(rows)
  {
    assert forall i, j | 0 <= i < |unsized| && 0 <= j < |ranked| :: unsized[i] != ranked[j].symbol by {
      assert forall i | 0 <= i < |unsized| :: unsized[i] in unsized;
      assert forall j | 0 <= j < |ranked| :: ranked[j] in ranked;
    }
  }

  lemma SymbolsOfRows(unsized: seq<Symbol>, u: Outcome, ranked: seq<Order>,
      outcomes: seq<Outcome>, rows: seq<OrderRow>)
    requires |outcomes| == |ranked|
    requires || rows == UnsizedRows(unsized, u) + OrderRows(ranked, outcomes)
             || rows == OrderRows(ranked, outcomes) + UnsizedRows(unsized, u)
    ensures RowSymbols(rows) == (set s | s in unsized) + OrderSymbols(ranked)
  {
    var a, b := UnsizedRows(unsized, u), OrderRows(ranked, outcomes);
    forall s | s in unsized
      ensures exists r | r in rows :: r.symbol == s
    {
      var i :| 0 <= i < |unsized| && unsized[i] == s;
      assert a[i] in rows;
    }
    forall o | o in ranked
      ensures exists r | r in rows :: r.symbol == o.symbol
    {
      var i :| 0 <= i < |ranked| && ranked[i] == o;
      assert b[i] in rows;
    }
    forall r | r in rows
      ensures r.symbol in unsized || exists o | o in ranked :: o.symbol == r.symbol
    {
      if r in a {
        var i :| 0 <= i < |a| && a[i] == r;
        assert r.symbol == unsized[i];
      } else {
        var i :| 0 <= i < |b| && b[i] == r;
        assert ranked[i] in ranked;
      }
    }
  }

  /** The day's orders as the fill loop takes them. */
  function DayOrders(picks: seq<Pick>, cash: int, t: Terms): seq<Order>
    requires ValidTerms(t) && Sizable(picks)
  {
    Ranked(EntryOrders(picks, Investable(cash, t), t), PredsOf(picks))
  }

  /** What a recorded normal entry has put into the ledger. */
  ghost predicate Entered(rows: Rows, fills: seq<Fill>, beforeFills: seq<Fill>, day: Day, picks: seq<Pick>,
      closes: Closes, cash: int, t: Terms, outcomes: seq<Outcome>)
    requires ValidTerms(t) && Sizable(picks)
  {
    var ranked := DayOrders(picks, cash, t);
    && Settles(ranked, outcomes, closes, cash, t)
    && fills == beforeFills + Fills(ranked, outcomes, closes, day)
    && (forall i | 0 <= i < |ranked| :: EntryId(day, ranked[i].symbol) in rows
          && rows[EntryId(day, ranked[i].symbol)] == OrderRow(ranked[i].symbol, ranked[i].qty, outcomes[i]))
    && (forall s | s in Unsized(picks, Investable(cash, t), t) ::
        EntryId(day, s) in rows && rows[EntryId(day, s)] == OrderRow(s, 0, ZeroQty))
  }

  /** Exactly the entry rows of the picks were added; every other row is what it was. */
  predicate OnlyPicksRecorded(before: Rows, now: Rows, day: Day, picks: seq<Pick>) {
    && now.Keys == before.Keys + (set p | p in picks :: EntryId(day, p.symbol))
    && forall id | id in before :: now[id] == before[id]
  }

  predicate RecordedFor(rows: Rows, day: Day) {
    exists id | id in rows :: id.EntryId? && id.day == day
  }

  /** Why the normal path books nothing: a confirmed close that cannot be executed, or a fill key already there. */
  ghost predicate Blocked(fills: seq<Fill>, day: Day, picks: seq<Pick>, closes: Closes, placedAt: Time, cash: int,
      t: Terms, outcomes: seq<Outcome>)
    requires ValidTerms(t) && Sizable(picks)
  {
    var ranked := DayOrders(picks, cash, t);
    !Executable(ranked, closes, placedAt)
    || (Settles(ranked, outcomes, closes, cash, t) && !(Ids(Fills(ranked, outcomes, closes, day)) !! Ids(fills)))
  }

  lemma RankedIsDistinct(ranked: seq<Order>, preds: Preds)
    requires InRankOrder(ranked, preds)
    ensures DistinctOrders(ranked)
  {
    forall i, j | 0 <= i < j < |ranked|
      ensures ranked[i].symbol != ranked[j].symbol
    {
      assert Precedes(ranked[i].symbol, ranked[j].symbol, preds);
    }
  }

  lemma RowsRecorded(before: Rows, day: Day, picks: seq<Pick>, rows: seq<OrderRow>)
    requires OneRowPerPick(rows, picks) && !RecordedFor(before, day)
    ensures OnlyPicksRecorded(before, WithRows(before, day, rows), day, picks)
    ensures forall i | 0 <= i < |rows| :: EntryId(day, rows[i].symbol) in WithRows(before, day, rows)
                                          && WithRows(before, day, rows)[EntryId(day, rows[i].symbol)] == rows[i]
  {
    var now := WithRows(before, day, rows);
    RecordedRows(before, day, rows);
    forall p | p in picks
      ensures EntryId(day, p.symbol) in now
    {
      assert p.symbol in PickSymbols(picks);
      assert p.symbol in RowSymbols(rows);
      var r :| r in rows && r.symbol == p.symbol;
      var i :| 0 <= i < |rows| && rows[i] == r;
    }
    forall id | id in now && id !in before
      ensures exists p | p in picks :: id == EntryId(day, p.symbol)
    {
      var i :| 0 <= i < |rows| && rows[i].symbol == id.symbol;
      assert rows[i] in rows && id.symbol in RowSymbols(rows);
      assert id.symbol in PickSymbols(picks);
    }
  }

  lemma MissedEverywhere(before: Rows, day: Day, picks: seq<Pick>, rows: seq<OrderRow>)
    requires OneRowPerPick(rows, picks) && forall i | 0 <= i < |rows| :: rows[i].outcome == MissedAuction
    ensures forall p | p in picks :: EntryId(day, p.symbol) in WithRows(before, day, rows)
                                     && WithRows(before, day, rows)[EntryId(day, p.symbol)].outcome == MissedAuction
  {
    RecordedRows(before, day, rows);
    forall p | p in picks
      ensures exists i | 0 <= i < |rows| :: rows[i].symbol == p.symbol
    {
      assert p.symbol in PickSymbols(picks);
      assert p.symbol in RowSymbols(rows);
      var r :| r in rows && r.symbol == p.symbol;
      var i :| 0 <= i < |rows| && rows[i] == r;
    }
  }

  lemma RowsOfEntry(unsized: seq<Symbol>, ranked: seq<Order>, outcomes: seq<Outcome>,
      rows: seq<OrderRow>, before: Rows, day: Day)
    requires |ranked| == |outcomes| && rows == UnsizedRows(unsized, ZeroQty) + OrderRows(ranked, outcomes)
    requires forall i | 0 <= i < |rows| :: EntryId(day, rows[i].symbol) in WithRows(before, day, rows)
                                           && WithRows(before, day, rows)[EntryId(day, rows[i].symbol)] == rows[i]
    ensures forall i | 0 <= i < |ranked| :: EntryId(day, ranked[i].symbol) in WithRows(before, day, rows)
              && WithRows(before, day, rows)[EntryId(day, ranked[i].symbol)] ==
                  OrderRow(ranked[i].symbol, ranked[i].qty, outcomes[i])
    ensures forall s | s in unsized :: EntryId(day, s) in WithRows(before, day, rows)
              && WithRows(before, day, rows)[EntryId(day, s)] == OrderRow(s, 0, ZeroQty)
  {
    forall i | 0 <= i < |ranked|
      ensures rows[|unsized| + i] == OrderRow(ranked[i].symbol, ranked[i].qty, outcomes[i])
    {
    }
    forall s | s in unsized
      ensures exists i | 0 <= i < |unsized| :: unsized[i] == s && rows[i] == OrderRow(s, 0, ZeroQty)
    {
      var i :| 0 <= i < |unsized| && unsized[i] == s;
    }
  }

  // ---- Booking the day -------------------------------------------------------------------------------------------

  /** `_run_entry`: book the day's picks once. */
  method RunEntry(ledger: PaperLedger, day: Day, windowOpen: bool, picks: seq<Pick>, closes: Closes, missed: bool,
      tradingOpen: bool, placedAt: Time, t: Terms)
    returns (r: Result<nat, EntryError>, outcomes: seq<Outcome>)
    requires ledger.Valid() && ValidTerms(t) && Distinct(picks)
    modifies ledger
    ensures ledger.Valid() && ledger.voided == old(ledger.voided)
    ensures r.Err? || !windowOpen || old(RecordedFor(ledger.orders, day)) || picks == [] ==>
            ledger.orders == old(ledger.orders) && ledger.fills == old(ledger.fills)
    ensures !windowOpen || old(RecordedFor(ledger.orders, day)) ==>
              r == Ok(0) && ledger.noDecision == old(ledger.noDecision)
    ensures windowOpen && !old(RecordedFor(ledger.orders, day)) && picks == [] ==>
              r == Ok(0) && ledger.noDecision == old(ledger.noDecision) + if tradingOpen then {day} else {}
    ensures r.Ok? && windowOpen && !old(RecordedFor(ledger.orders, day)) && picks != [] ==>
              && Sizable(picks) && RecordedFor(ledger.orders, day)
              && OnlyPicksRecorded(old(ledger.orders), ledger.orders, day, picks)
              && (if missed
                  then ledger.fills == old(ledger.fills)
                       && forall p | p in picks :: ledger.orders[EntryId(day, p.symbol)].outcome == MissedAuction
                  else Entered(ledger.orders, ledger.fills, old(ledger.fills), day, picks, closes,
                               old(ledger.Cash(t)), t, outcomes)
                       && r.value == |ledger.fills| - |old(ledger.fills)|)
    ensures r.Err? ==> windowOpen && picks != [] && (Sizable(picks) ==>
              !missed && Blocked(old(ledger.fills), day, picks, closes, placedAt, old(ledger.Cash(t)), t, outcomes))
    ensures r.Ok? && ledger.fills != old(ledger.fills) ==> 0 <= ledger.Cash(t)
    ensures r.Ok? && windowOpen && !old(RecordedFor(ledger.orders, day)) && picks != [] && !missed ==>
              ledger.Cash(t)
              == old(ledger.Cash(t)) - Spent(DayOrders(picks, old(ledger.Cash(t)), t), outcomes, closes, t)
  {
    outcomes := [];
    if !windowOpen || RecordedFor(ledger.orders, day) {
      return Ok(0), outcomes;
    }
    if picks == [] {
      if tradingOpen {
        ledger.RecordNoDecision(day);
      }
      return Ok(0), outcomes;
    }
    if !Sizable(picks) {
      return Err(BadAllocation), outcomes;
    }
    if missed {
      BookMissed(ledger, day, picks, Investable(ledger.Cash(t), t), t);
      return Ok(0), outcomes;
    }
    r, outcomes := BookEntry(ledger, day, picks, closes, placedAt, t);
  }

  /** A decision after the auction, or a session that is not standard: every pick is recorded, none is filled. */
  method BookMissed(ledger: PaperLedger, day: Day, picks: seq<Pick>, capital: nat, t: Terms)
    requires ValidTerms(t) && Distinct(picks) && Sizable(picks) && picks != [] && !RecordedFor(ledger.orders, day)
    modifies ledger`orders
    ensures OnlyPicksRecorded(old(ledger.orders), ledger.orders, day, picks) && RecordedFor(ledger.orders, day)
    ensures forall p | p in picks :: ledger.orders[EntryId(day, p.symbol)].outcome == MissedAuction
  {
    var sized, unsized := EntryOrders(picks, capital, t), Unsized(picks, capital, t);
    SplitIsDistinct(picks, capital, t);
    var outcomes := seq(|sized|, _ => MissedAuction);
    var rows := OrderRows(sized, outcomes) + UnsizedRows(unsized, MissedAuction);
    EntryRowsAreOnePerPick(picks, capital, t, sized, MissedAuction, outcomes, rows);
    RowsRecorded(ledger.orders, day, picks, rows);
    MissedEverywhere(ledger.orders, day, picks, rows);
    ledger.RecordOrders(day, rows);
  }

  /** The normal path: fills in rank order, then the fills and the order rows into the ledger. */
  method BookEntry(ledger: PaperLedger, day: Day, picks: seq<Pick>, closes: Closes, placedAt: Time, t: Terms)
    returns (r: Result<nat, EntryError>, outcomes: seq<Outcome>)
    requires ledger.Valid() && ValidTerms(t) && Distinct(picks) && Sizable(picks) && picks != []
    requires !RecordedFor(ledger.orders, day)
    modifies ledger`orders, ledger`fills
    ensures ledger.Valid()
    ensures r.Err? ==> ledger.orders == old(ledger.orders) && ledger.fills == old(ledger.fills)
    ensures r.Err? ==> Blocked(old(ledger.fills), day, picks, closes, placedAt, old(ledger.Cash(t)), t, outcomes)
    ensures r.Ok? ==> RecordedFor(ledger.orders, day)
    ensures r.Ok? ==> OnlyPicksRecorded(old(ledger.orders), ledger.orders, day, picks)
    ensures r.Ok? ==> Entered(ledger.orders, ledger.fills, old(ledger.fills), day, picks, closes,
                              old(ledger.Cash(t)), t, outcomes)
    ensures r.Ok? ==> r.value == |ledger.fills| - |old(ledger.fills)|
    ensures r.Ok? ==>
              ledger.Cash(t)
              == old(ledger.Cash(t)) - Spent(DayOrders(picks, old(ledger.Cash(t)), t), outcomes, closes, t)
    ensures r.Ok? && ledger.fills != old(ledger.fills) ==> 0 <= ledger.Cash(t)
  {
    var cash := ledger.Cash(t);
    var sized, unsized := EntryOrders(picks, Investable(cash, t), t), Unsized(picks, Investable(cash, t), t);
    var ranked := Ranked(sized, PredsOf(picks));
    SplitIsDistinct(picks, Investable(cash, t), t);
    RankedIsSorted(sized, PredsOf(picks));
    RankedIsDistinct(ranked, PredsOf(picks));
    var settled, remaining;
    settled, outcomes, remaining := Settle(ranked, closes, placedAt, cash, day, t);
    if settled.Err? {
      return Err(settled.error), outcomes;
    }
    var rows := UnsizedRows(unsized, ZeroQty) + OrderRows(ranked, outcomes);
    EntryRowsAreOnePerPick(picks, Investable(cash, t), t, ranked, ZeroQty, outcomes, rows);
    SettledFillsHavePrices(ranked, outcomes, closes, placedAt, cash, t);
    FillsHaveOwnIds(ranked, outcomes, closes, day, PredsOf(picks));
    var recorded := Record(ledger, day, picks, rows, settled.value);
    if !recorded {
      return Err(FillExists), outcomes;
    }
    LedgerCashIsRemainingCash(old(ledger.fills), ledger.voided, ranked, outcomes, closes, day, t);
    RowsOfEntry(unsized, ranked, outcomes, rows, old(ledger.orders), day);
    return Ok(|settled.value|), outcomes;
  }

  /** Fills first, then the order rows. */
  method Record(ledger: PaperLedger, day: Day, picks: seq<Pick>, rows: seq<OrderRow>, added: seq<Fill>)
    returns (ok: bool)
    requires DistinctIds(added)
    requires ledger.Valid() && OneRowPerPick(rows, picks) && picks != [] && !RecordedFor(ledger.orders, day)
    modifies ledger`orders, ledger`fills
    ensures ledger.Valid() && (ok ==> forall f | f in added :: f.id !in ledger.voided)
    ensures ok ==> ledger.fills == old(ledger.fills) + added && ledger.orders == WithRows(old(ledger.orders), day, rows)
    ensures !ok ==> ledger.fills == old(ledger.fills) && ledger.orders == old(ledger.orders)
    ensures !ok ==> !(Ids(added) !! Ids(ledger.fills))
    ensures ok ==> OnlyPicksRecorded(old(ledger.orders), ledger.orders, day, picks)
    ensures ok ==> RecordedFor(ledger.orders, day)
    ensures ok ==> forall i | 0 <= i < |rows| ::
            EntryId(day, rows[i].symbol) in ledger.orders && ledger.orders[EntryId(day, rows[i].symbol)] == rows[i]
  {
    ok := ledger.RecordFills(added);
    if ok {
      DistinctTogether(old(ledger.fills), added);
      assert forall f | f in added :: f.id in Ids(added);
      RowsRecorded(ledger.orders, day, picks, rows);
      ledger.RecordOrders(day, rows);
      assert rows[0] == rows[0] && EntryId(day, rows[0].symbol) in ledger.orders;
    }
  }

  /**
   * The day's entry is triggered twice; whatever the second trigger brings, it finds the day booked and changes
   * nothing.
   */
  method TriggerTwice(ledger: PaperLedger, day: Day, picks: seq<Pick>, closes: Closes, missed: bool, placedAt: Time,
      laterOpen: bool, laterPicks: seq<Pick>, laterCloses: Closes, laterMissed: bool, tradingOpen: bool, t: Terms)
    returns (first: Result<nat, EntryError>, second: Result<nat, EntryError>, ghost booked: Rows,
            ghost filled: seq<Fill>)
    requires ledger.Valid() && ValidTerms(t) && Distinct(picks) && Distinct(laterPicks) && picks != []
    modifies ledger
    ensures first.Ok? ==>
            RecordedFor(booked, day) && second == Ok(0) && ledger.orders == booked && ledger.fills == filled
  {
    var outcomes, again;
    first, outcomes := RunEntry(ledger, day, true, picks, closes, missed, tradingOpen, placedAt, t);
    booked, filled := ledger.orders, ledger.fills;
    second, again := RunEntry(ledger, day, laterOpen, laterPicks, laterCloses, laterMissed, tradingOpen, placedAt, t);
  }
}
