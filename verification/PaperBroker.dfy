/**
 * The paper ledger (src/execution/paper_broker.py): fees, sizing, the cash that fills leave, and the ledger's two kinds
 * of rows. Amounts are whole won; the brokerage rate and allocations are reals.
 */
module PaperBroker {
  type Symbol = int
  type Day = int
  type Time = int

  datatype Outcome = Filled | Unconfirmed | NoSnapshotRow | ZeroQty | MissedAuction | InsufficientCash

  datatype OrderId = EntryId(day: Day, symbol: Symbol) | ExitId(entry: Day, symbol: Symbol, day: Day)

  datatype OrderRow = OrderRow(symbol: Symbol, qty: nat, outcome: Outcome)

  datatype Fill = Buy(id: OrderId, qty: nat, price: nat) | Sell(id: OrderId, qty: nat, price: nat, tax: nat)

  /** Seed capital, sizing buffer and one-side brokerage in basis points, and the fee every path charges. */
  datatype Terms = Terms(seed: nat, bufferBp: real, feeBp: real, sideFee: nat -> nat)

  predicate ValidTerms(t: Terms) {
    t.feeBp >= 0.0 && t.bufferBp >= 0.0
  }

  /** `side_fee_krw`: the brokerage on the notional, rounded down to whole won. */
  function BrokerageFee(notional: nat, feeBp: real): (fee: nat)
    requires feeBp >= 0.0
    ensures fee as real <= notional as real * (feeBp / 10000.0)
  {
    NonNegativeProduct(notional as real, feeBp / 10000.0);
    (notional as real * (feeBp / 10000.0)).Floor
  }

  ghost predicate ChargesBrokerage(t: Terms)
    requires ValidTerms(t)
  {
    forall n: nat :: t.sideFee(n) == BrokerageFee(n, t.feeBp)
  }

  // ---- Sizing -------------------------------------------------------------------------------------

  lemma NonNegativeProduct(a: real, b: real)
    requires a >= 0.0 && b >= 0.0
    ensures a * b >= 0.0
  {
  }

  function Rate(t: Terms): real {
    1.0 + t.feeBp / 10000.0
  }

  /** Cash that entries may use: it leaves room for the buy fees and never exceeds the seed. */
  function Investable(cash: int, t: Terms): (capital: nat)
    requires ValidTerms(t)
    ensures capital <= t.seed && (capital == 0 || capital as real <= cash as real / Rate(t))
  {
    var affordable := (cash as real / Rate(t)).Floor;
    var capped := if t.seed <= affordable then t.seed else affordable;
    if capped <= 0 then 0 else capped
  }

  /** The price an order is sized at: the decision price with its buffer, rounded up, or 0 without one. */
  function SizingPrice(close: int, t: Terms): (p: int)
    requires ValidTerms(t)
    ensures close <= 0 ==> p == 0
    ensures close > 0 ==> p >= close
  {
    if close <= 0 then 0
    else
      NonNegativeProduct(close as real, t.bufferBp / 10000.0);
      var scaled := close as real + close as real * (t.bufferBp / 10000.0);
      -((-scaled).Floor)
  }

  function Qty(capital: nat, allocation: real, price: int): (qty: nat)
    requires allocation > 0.0 && price > 0
    ensures (qty * price) as real <= capital as real * allocation
  {
    NonNegativeProduct(capital as real, allocation);
    FloorTimes(capital as real * allocation, price);
    (capital as real * allocation / price as real).Floor
  }

  lemma FloorTimes(budget: real, price: int)
    requires budget >= 0.0 && price > 0
    ensures budget / price as real >= 0.0
    ensures ((budget / price as real).Floor * price) as real <= budget
  {
    var q := budget / price as real;
    assert q * price as real == budget;
    assert q >= 0.0 by {
      if q < 0.0 { NegativeProduct(q, price as real); }
    }
    ProductKeepsOrder(q.Floor as real, q, price as real);
  }

  lemma NegativeProduct(a: real, b: real)
    requires a < 0.0 && b > 0.0
    ensures a * b < 0.0
  {
  }

  lemma ProductKeepsOrder(a: real, b: real, c: real)
    requires a <= b && c >= 0.0
    ensures a * c <= b * c
  {
  }

  // ---- Cash ---------------------------------------------------------------------------------------

  function Notional(qty: nat, price: nat): nat {
    price * qty
  }

  function Cost(qty: nat, price: nat, t: Terms): nat {
    Notional(qty, price) + t.sideFee(Notional(qty, price))
  }

  /** `build_nav_snapshot`: seed less what buys took, plus what sells brought after fee and tax. */
  function NavCash(fills: seq<Fill>, t: Terms): int {
    if fills == [] then t.seed
    else NavCash(fills[..|fills| - 1], t) + CashFlow(fills[|fills| - 1], t)
  }

  function CashFlow(f: Fill, t: Terms): int {
    match f
    case Buy(_, qty, price) => 0 - Cost(qty, price, t)
    case Sell(_, qty, price, tax) => Notional(qty, price) - t.sideFee(Notional(qty, price)) - tax
  }

  /** Fills that no correction has voided. */
  function Effective(fills: seq<Fill>, voided: set<OrderId>): seq<Fill> {
    if fills == [] then []
    else
      Effective(fills[..|fills| - 1], voided) + (if fills[|fills| - 1].id in voided then [] else [fills[|fills| - 1]])
  }

  lemma {:induction false} EffectiveConcat(a: seq<Fill>, b: seq<Fill>, voided: set<OrderId>)
    ensures Effective(a + b, voided) == Effective(a, voided) + Effective(b, voided)
  {
    if b == [] {
      assert a + b == a;
    } else {
      assert (a + b)[..|a + b| - 1] == a + b[..|b| - 1];
      EffectiveConcat(a, b[..|b| - 1], voided);
    }
  }

  lemma {:induction false} NavCashConcat(a: seq<Fill>, b: seq<Fill>, t: Terms)
    ensures NavCash(a + b, t) == NavCash(a, t) + NavCash(b, t) - t.seed
  {
    if b == [] {
      assert a + b == a;
    } else {
      assert (a + b)[..|a + b| - 1] == a + b[..|b| - 1];
      NavCashConcat(a, b[..|b| - 1], t);
    }
  }

  lemma {:induction false} NothingVoided(fills: seq<Fill>, voided: set<OrderId>)
    requires forall f | f in fills :: f.id !in voided
    ensures Effective(fills, voided) == fills
  {
    if fills != [] {
      var n := |fills| - 1;
      assert fills == fills[..n] + [fills[n]];
      NothingVoided(fills[..n], voided);
    }
  }

  // ---- The ledger ---------------------------------------------------------------------------------

  type Rows = map<OrderId, OrderRow>

  /** Last write wins by order id. */
  function WithRows(ledger: Rows, day: Day, rows: seq<OrderRow>): Rows {
    if rows == [] then ledger
    else WithRows(ledger, day, rows[..|rows| - 1])[EntryId(day, rows[|rows| - 1].symbol) := rows[|rows| - 1]]
  }

  predicate DistinctRows(rows: seq<OrderRow>) {
    forall i, j | 0 <= i < j < |rows| :: rows[i].symbol != rows[j].symbol
  }

  lemma {:induction false} RecordedRows(ledger: Rows, day: Day, rows: seq<OrderRow>)
    requires DistinctRows(rows)
    ensures forall i | 0 <= i < |rows| :: EntryId(day, rows[i].symbol) in WithRows(ledger, day, rows)
                                          && WithRows(ledger, day, rows)[EntryId(day, rows[i].symbol)] == rows[i]
    ensures forall id | id in ledger && !(id.EntryId? && id.day == day) ::
              id in WithRows(ledger, day, rows) && WithRows(ledger, day, rows)[id] == ledger[id]
    ensures forall id | id in WithRows(ledger, day, rows) && id !in ledger ::
              id.EntryId? && id.day == day && exists i | 0 <= i < |rows| :: rows[i].symbol == id.symbol
  {
    if rows != [] {
      RecordedRows(ledger, day, rows[..|rows| - 1]);
    }
  }

  function Ids(fills: seq<Fill>): set<OrderId> {
    set f | f in fills :: f.id
  }

  predicate DistinctIds(fills: seq<Fill>) {
    forall i, j | 0 <= i < j < |fills| :: fills[i].id != fills[j].id
  }

  lemma DistinctTogether(a: seq<Fill>, b: seq<Fill>)
    requires DistinctIds(a) && DistinctIds(b) && Ids(b) !! Ids(a)
    ensures DistinctIds(a + b) && Ids(a + b) == Ids(a) + Ids(b)
  {
    assert forall i | 0 <= i < |a| :: a[i].id in Ids(a);
    assert forall j | 0 <= j < |b| :: b[j].id in Ids(b);
  }

  class PaperLedger {
    var orders: Rows
    var fills: seq<Fill>
    var voided: set<OrderId>
    var noDecision: set<Day>

    /** Fill keys are unique, and only recorded fills are ever voided. */
    predicate Valid()
      reads this
    {
      DistinctIds(fills) && voided <= Ids(fills)
    }

    constructor ()
      ensures Valid() && orders == map[] && fills == []
    {
      orders, fills, voided, noDecision := map[], [], {}, {};
    }

    /** Cash available to an entry, from the fills that no correction has voided. */
    function Cash(t: Terms): int
      reads this
    {
      NavCash(Effective(fills, voided), t)
    }

    /** Fills are evidence: a key that is repeated or already there is refused and nothing is written. */
    method RecordFills(added: seq<Fill>) returns (ok: bool)
      requires Valid()
      modifies this`fills
      ensures Valid()
      ensures ok <==> DistinctIds(added) && Ids(added) !! Ids(old(fills))
      ensures fills == if ok then old(fills) + added else old(fills)
    {
      ok := DistinctIds(added) && Ids(added) !! Ids(fills);
      if ok {
        DistinctTogether(fills, added);
        fills := fills + added;
      }
    }

    /** Order rows carry status updates: the last one of a key wins. */
    method RecordOrders(day: Day, rows: seq<OrderRow>)
      modifies this`orders
      ensures orders == WithRows(old(orders), day, rows)
    {
      for i := 0 to |rows|
        invariant orders == WithRows(old(orders), day, rows[..i])
      {
        assert rows[..i + 1][..i] == rows[..i];
        orders := orders[EntryId(day, rows[i].symbol) := rows[i]];
      }
      assert rows[..|rows|] == rows;
    }

    method RecordNoDecision(day: Day)
      modifies this`noDecision
      ensures noDecision == old(noDecision) + {day}
    {
      noDecision := noDecision + {day};
    }
  }
}
