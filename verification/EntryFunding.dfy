/**
 * Sizing and settlement together: orders sized from the investable cash are never turned away for lack of it
 * (src/execution/paper_broker.py, src/daily/paper_trade.py).
 */
module EntryFunding {
  import opened Common
  import opened PaperBroker
  import opened PaperEntry

  /** What each symbol may cost: its allocation of `k` won. */
  type Budgets = map<Symbol, real>

  function Share(k: real, p: Pick): real {
    k * p.allocation
  }

  function BudgetsOf(picks: seq<Pick>, k: real): Budgets {
    if picks == [] then map[]
    else BudgetsOf(picks[..|picks| - 1], k)[picks[|picks| - 1].symbol := Share(k, picks[|picks| - 1])]
  }

  function BudgetOf(o: Order, budgets: Budgets): real {
    if o.symbol in budgets then budgets[o.symbol] else 0.0
  }

  function Budget(orders: seq<Order>, budgets: Budgets): real {
    if orders == [] then 0.0 else Budget(orders[..|orders| - 1], budgets) + BudgetOf(orders[|orders| - 1], budgets)
  }

  function TotalAllocation(picks: seq<Pick>): real {
    if picks == [] then 0.0 else TotalAllocation(picks[..|picks| - 1]) + picks[|picks| - 1].allocation
  }

  function TotalShare(picks: seq<Pick>, k: real): real {
    if picks == [] then 0.0 else TotalShare(picks[..|picks| - 1], k) + Share(k, picks[|picks| - 1])
  }

  lemma {:induction false} SharesAddUp(picks: seq<Pick>, k: real)
    ensures TotalShare(picks, k) == k * TotalAllocation(picks)
  {
    if picks != [] {
      SharesAddUp(picks[..|picks| - 1], k);
      Distributes(k, TotalAllocation(picks[..|picks| - 1]), picks[|picks| - 1]);
    }
  }

  lemma Distributes(k: real, total: real, p: Pick)
    ensures k * (total + p.allocation) == k * total + Share(k, p)
  {
  }

  predicate WithinBudget(o: Order, closes: Closes, budgets: Budgets, t: Terms) {
    Charge(o, closes, t) as real <= BudgetOf(o, budgets)
  }

  lemma {:induction false} InsertBudget(orders: seq<Order>, o: Order, preds: Preds, budgets: Budgets)
    ensures Budget(Insert(orders, o, preds), budgets) == Budget(orders, budgets) + BudgetOf(o, budgets)
  {
    if orders == [] || Precedes(orders[|orders| - 1].symbol, o.symbol, preds) {
      assert (orders + [o])[..|orders|] == orders;
    } else {
      var n := |orders| - 1;
      InsertBudget(orders[..n], o, preds, budgets);
      var inner := Insert(orders[..n], o, preds);
      assert (inner + [orders[n]])[..|inner|] == inner;
    }
  }

  lemma {:induction false} RankedBudget(orders: seq<Order>, preds: Preds, budgets: Budgets)
    ensures Budget(Ranked(orders, preds), budgets) == Budget(orders, budgets)
  {
    if orders != [] {
      RankedBudget(orders[..|orders| - 1], preds, budgets);
      InsertBudget(Ranked(orders[..|orders| - 1], preds), orders[|orders| - 1], preds, budgets);
    }
  }

  predicate PickSized(p: Pick, capital: nat, t: Terms, o: Order)
    requires ValidTerms(t)
  {
    p.close > 0 && p.allocation > 0.0 && OrderFor(p, capital, t) == Some(o)
  }

  lemma {:induction false} OrdersComeFromPicks(picks: seq<Pick>, capital: nat, t: Terms)
    requires ValidTerms(t) && Sizable(picks)
    ensures forall o | o in EntryOrders(picks, capital, t) :: exists p | p in picks :: PickSized(p, capital, t, o)
  {
    if picks != [] {
      var n := |picks| - 1;
      OrdersComeFromPicks(picks[..n], capital, t);
      forall o | o in EntryOrders(picks, capital, t)
        ensures exists p | p in picks :: PickSized(p, capital, t, o)
      {
        if o in EntryOrders(picks[..n], capital, t) {
          var p :| p in picks[..n] && PickSized(p, capital, t, o);
          assert p in picks;
        } else {
          assert picks[n] in picks && PickSized(picks[n], capital, t, o);
        }
      }
    }
  }

  lemma {:induction false} BudgetOfPick(picks: seq<Pick>, p: Pick, k: real)
    requires Distinct(picks) && p in picks
    ensures p.symbol in BudgetsOf(picks, k) && BudgetsOf(picks, k)[p.symbol] == Share(k, p)
  {
    var n := |picks| - 1;
    assert picks == picks[..n] + [picks[n]];
    if p != picks[n] {
      BudgetOfPick(picks[..n], p, k);
    }
  }

  lemma ShareIsNonNegative(k: real, p: Pick)
    requires k >= 0.0 && p.allocation > 0.0
    ensures Share(k, p) >= 0.0
  {
  }

  /** The orders of these picks may cost no more than `k` times the allocations. */
  lemma {:induction false} OrderBudgets(picks: seq<Pick>, all: seq<Pick>, capital: nat, k: real, t: Terms)
    requires ValidTerms(t) && Sizable(picks) && Distinct(all) && picks <= all && k >= 0.0
    requires forall i | 0 <= i < |all| :: all[i].allocation > 0.0
    ensures Budget(EntryOrders(picks, capital, t), BudgetsOf(all, k)) <= TotalShare(picks, k)
  {
    if picks != [] {
      var n := |picks| - 1;
      OrderBudgets(picks[..n], all, capital, k, t);
      assert picks[n] == all[n];
      BudgetOfPick(all, picks[n], k);
      ShareIsNonNegative(k, picks[n]);
      NextBudget(picks, BudgetsOf(all, k), capital, k, t);
    }
  }

  lemma NextBudget(picks: seq<Pick>, budgets: Budgets, capital: nat, k: real, t: Terms)
    requires ValidTerms(t) && Sizable(picks) && picks != []
    requires picks[|picks| - 1].symbol in budgets
    requires budgets[picks[|picks| - 1].symbol] == Share(k, picks[|picks| - 1]) >= 0.0
    ensures Budget(EntryOrders(picks, capital, t), budgets)
            <= Budget(EntryOrders(picks[..|picks| - 1], capital, t), budgets) + Share(k, picks[|picks| - 1])
  {
    var before := EntryOrders(picks[..|picks| - 1], capital, t);
    var order := OrderFor(picks[|picks| - 1], capital, t);
    if order.Some? {
      assert (before + [order.value])[..|before|] == before;
    } else {
      assert before + [] == before;
    }
  }

  lemma ChargeWithinRate(qty: nat, price: nat, budget: real, t: Terms)
    requires ValidTerms(t) && ChargesBrokerage(t) && Notional(qty, price) as real <= budget
    ensures Cost(qty, price, t) as real <= Rate(t) * budget
  {
    var n, fee := Notional(qty, price) as real, t.feeBp / 10000.0;
    ProductKeepsOrder(n, budget, fee);
    assert t.sideFee(Notional(qty, price)) == BrokerageFee(Notional(qty, price), t.feeBp);
    assert Rate(t) * budget == budget + budget * fee;
  }

  lemma CheaperFill(qty: nat, price: nat, sizing: int)
    requires price <= sizing
    ensures Notional(qty, price) <= qty * sizing
  {
  }

  lemma Regroup(rate: real, capital: real, a: real)
    ensures rate * (capital * a) == rate * capital * a
  {
  }

  lemma SizedOrderIsWithinBudget(p: Pick, o: Order, closes: Closes, capital: nat,
      budgets: Budgets, t: Terms)
    requires ValidTerms(t) && ChargesBrokerage(t) && PickSized(p, capital, t, o)
    requires p.symbol in budgets && budgets[p.symbol] == Share(Rate(t) * capital as real, p)
    requires Confirmed(o, closes) ==> 0 <= closes[o.symbol].price <= SizingPrice(p.close, t)
    ensures WithinBudget(o, closes, budgets, t)
  {
    var budget := capital as real * p.allocation;
    NonNegativeProduct(capital as real, p.allocation);
    NonNegativeProduct(Rate(t), budget);
    Regroup(Rate(t), capital as real, p.allocation);
    if Confirmed(o, closes) {
      var price := closes[o.symbol].price;
      CheaperFill(o.qty, price, SizingPrice(p.close, t));
      ChargeWithinRate(o.qty, price, budget, t);
    }
  }

  lemma {:induction false} SpentIsWithinBudget(orders: seq<Order>, outcomes: seq<Outcome>, closes: Closes,
      budgets: Budgets, t: Terms, i: nat)
    requires |orders| == |outcomes| && i < |orders|
    requires forall k | 0 <= k < |orders| :: WithinBudget(orders[k], closes, budgets, t)
    ensures (Spent(orders[..i], outcomes[..i], closes, t)
            + Charge(orders[i], closes, t)) as real <= Budget(orders, budgets)
    decreases |orders|
  {
    var n := |orders| - 1;
    assert WithinBudget(orders[n], closes, budgets, t);
    if i < n {
      SpentIsWithinBudget(orders[..n], outcomes[..n], closes, budgets, t, i);
      assert orders[..n][..i] == orders[..i] && outcomes[..n][..i] == outcomes[..i];
    } else if n > 0 {
      SpentIsWithinBudget(orders[..n], outcomes[..n], closes, budgets, t, n - 1);
      assert orders[..n][..n - 1] == orders[..n - 1] && outcomes[..n][..n - 1] == outcomes[..n - 1];
    }
  }

  lemma FitsByDivision(capital: real, cash: real, rate: real, total: real)
    requires rate > 0.0 && 0.0 <= capital <= cash / rate && total <= 1.0
    ensures rate * capital >= 0.0 && rate * capital * total <= cash
  {
    assert cash / rate * rate == cash;
    ProductKeepsOrder(capital, cash / rate, rate);
    NonNegativeProduct(rate, capital);
    ProductKeepsOrder(total, 1.0, rate * capital);
  }

  /** Won that a full allocation may cost, fees included. */
  lemma Spendable(cash: int, t: Terms, total: real) returns (k: real)
    requires ValidTerms(t) && total <= 1.0 && Investable(cash, t) > 0
    ensures k == Rate(t) * Investable(cash, t) as real && k >= 0.0 && k * total <= cash as real
  {
    FitsByDivision(Investable(cash, t) as real, cash as real, Rate(t), total);
    k := Rate(t) * Investable(cash, t) as real;
  }

  lemma NoCapitalNoOrder(p: Pick, t: Terms)
    requires ValidTerms(t) && p.close > 0 && p.allocation > 0.0
    ensures OrderFor(p, 0, t).None?
  {
    var price := SizingPrice(p.close, t) as real;
    assert 0.0 * p.allocation == 0.0 && 0.0 / price == 0.0;
  }

  lemma {:induction false} RankedMembers(orders: seq<Order>, preds: Preds)
    ensures forall o :: o in Ranked(orders, preds) <==> o in orders
    ensures |Ranked(orders, preds)| == |orders|
  {
    if orders != [] {
      var n := |orders| - 1;
      RankedMembers(orders[..n], preds);
      InsertAdds(Ranked(orders[..n], preds), orders[n], preds);
      assert orders == orders[..n] + [orders[n]];
      assert |multiset(Insert(Ranked(orders[..n], preds), orders[n], preds))| == |Ranked(orders[..n], preds)| + 1;
    }
  }

  lemma OrdersFitBudgets(picks: seq<Pick>, closes: Closes, capital: nat, k: real, t: Terms)
    requires SizedToFit(picks, closes, t) && k == Rate(t) * capital as real
    ensures forall o | o in EntryOrders(picks, capital, t) :: WithinBudget(o, closes, BudgetsOf(picks, k), t)
  {
    forall o | o in EntryOrders(picks, capital, t)
      ensures WithinBudget(o, closes, BudgetsOf(picks, k), t)
    {
      OrderFitsItsBudget(picks, closes, capital, k, o, t);
    }
  }

  lemma BudgetsFitCash(picks: seq<Pick>, closes: Closes, capital: nat, k: real, cash: real, t: Terms)
    requires SizedToFit(picks, closes, t) && k >= 0.0 && k * TotalAllocation(picks) <= cash
    ensures Budget(EntryOrders(picks, capital, t), BudgetsOf(picks, k)) <= cash
  {
    OrderBudgets(picks, picks, capital, k, t);
    SharesAddUp(picks, k);
  }

  /** Budgets that every order of these picks keeps and that together fit the cash. */
  lemma PlanBudgets(picks: seq<Pick>, closes: Closes, cash: int, t: Terms) returns (budgets: Budgets)
    requires SizedToFit(picks, closes, t) && Investable(cash, t) > 0
    ensures forall o | o in EntryOrders(picks, Investable(cash, t), t) :: WithinBudget(o, closes, budgets, t)
    ensures Budget(EntryOrders(picks, Investable(cash, t), t), budgets) <= cash as real
  {
    var k := Spendable(cash, t, TotalAllocation(picks));
    budgets := BudgetsOf(picks, k);
    OrdersFitBudgets(picks, closes, Investable(cash, t), k, t);
    BudgetsFitCash(picks, closes, Investable(cash, t), k, cash as real, t);
  }

  lemma OrderFitsItsBudget(picks: seq<Pick>, closes: Closes, capital: nat, k: real, o: Order, t: Terms)
    requires SizedToFit(picks, closes, t)
    requires k == Rate(t) * capital as real && o in EntryOrders(picks, capital, t)
    ensures WithinBudget(o, closes, BudgetsOf(picks, k), t)
  {
    OrdersComeFromPicks(picks, capital, t);
    var p :| p in picks && PickSized(p, capital, t, o);
    BudgetOfPick(picks, p, k);
    SizedOrderIsWithinBudget(p, o, closes, capital, BudgetsOf(picks, k), t);
  }

  lemma OrderNeedsCapital(picks: seq<Pick>, capital: nat, o: Order, t: Terms)
    requires ValidTerms(t) && Sizable(picks) && o in EntryOrders(picks, capital, t)
    ensures capital > 0
  {
    OrdersComeFromPicks(picks, capital, t);
    var p :| p in picks && PickSized(p, capital, t, o);
    NoCapitalNoOrder(p, t);
  }

  /** Allocations add up to at most one, and no confirmed close is above the price its order was sized at. */
  ghost predicate SizedToFit(picks: seq<Pick>, closes: Closes, t: Terms) {
    && ValidTerms(t) && ChargesBrokerage(t) && Distinct(picks) && TotalAllocation(picks) <= 1.0
    && (forall j | 0 <= j < |picks| :: picks[j].allocation > 0.0)
    && forall p | p in picks && p.symbol in closes && closes[p.symbol].confirmed ::
        0 <= closes[p.symbol].price <= SizingPrice(p.close, t)
  }

  /** What the sizing is designed for: then no order is ever turned away for cash, whatever the rank order. */
  lemma EveryOrderIsFunded(picks: seq<Pick>, closes: Closes, cash: int, preds: Preds,
      outcomes: seq<Outcome>, t: Terms, i: nat)
    requires SizedToFit(picks, closes, t)
    requires Settles(Ranked(EntryOrders(picks, Investable(cash, t), t), preds), outcomes, closes, cash, t)
    requires i < |outcomes|
    ensures !outcomes[i].InsufficientCash?
  {
    var orders := EntryOrders(picks, Investable(cash, t), t);
    RankedMembers(orders, preds);
    assert Ranked(orders, preds)[i] in orders;
    OrderNeedsCapital(picks, Investable(cash, t), Ranked(orders, preds)[i], t);
    var budgets := PlanBudgets(picks, closes, cash, t);
    FundedByBudget(orders, preds, outcomes, closes, cash, budgets, t, i);
  }

  lemma FundedByBudget(orders: seq<Order>, preds: Preds, outcomes: seq<Outcome>, closes: Closes,
      cash: int, budgets: Budgets, t: Terms, i: nat)
    requires Settles(Ranked(orders, preds), outcomes, closes, cash, t) && i < |outcomes|
    requires (forall o | o in orders :: WithinBudget(o, closes, budgets, t)) && Budget(orders, budgets) <= cash as real
    ensures !outcomes[i].InsufficientCash?
  {
    var ranked := Ranked(orders, preds);
    RankedMembers(orders, preds);
    RankedBudget(orders, preds, budgets);
    assert forall j | 0 <= j < |ranked| :: ranked[j] in ranked;
    SpentIsWithinBudget(ranked, outcomes, closes, budgets, t, i);
    InsufficientIff(ranked, outcomes, closes, cash, t, i);
  }
}
