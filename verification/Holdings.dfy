/** One strategy's cash and position, and how far integer rounding can push its cash from the true P&L. */
module Holdings {
  import opened Domain
  import opened Orders
  import opened Exchange

  datatype Holding = Holding(cash: int, position: nat, avg: int, realized: int)

  /** TradingContainer::apply_fill. */
  function ApplyFill(h: Holding, f: Fill): Holding
    requires f.qty > 0
  {
    var cash := h.cash + f.cashImpact;
    if f.side == Buy then
      if h.position == 0 then Holding(cash, f.qty, f.price, h.realized)
      else Holding(cash, h.position + f.qty, MergeAverage(h.avg, h.position, f.price, f.qty), h.realized)
    else
      var left := Max(0, h.position - f.qty);
      Holding(cash, left, if left == 0 then 0 else h.avg, h.realized + (f.price * f.qty - h.avg * f.qty - f.fees))
  }

  /** A purchase changes no realised profit and leaves the average price of all shares, to the paisa below;
      a sale realises its gain over the average less its fees, and keeps the average until nothing is left. */
  lemma FillMoves(h: Holding, f: Fill)
    requires f.qty > 0
    ensures var g := ApplyFill(h, f);
      && g.cash == h.cash + f.cashImpact
      && (f.side == Buy ==>
            && g.position == h.position + f.qty && g.realized == h.realized
            && (h.avg >= 0 && f.price >= 0 ==>
                  var cost := (if h.position > 0 then h.avg * h.position else 0) + f.price * f.qty;
                  g.avg * g.position <= cost < g.avg * g.position + g.position))
      && (f.side == Sell ==>
            && g.position == Max(0, h.position - f.qty)
            && g.realized == h.realized + (f.price - h.avg) * f.qty - f.fees
            && g.avg == if h.position > f.qty then h.avg else 0)
  {
    if f.side == Buy && h.position > 0 && h.avg >= 0 && f.price >= 0 {
      assert h.avg * h.position >= 0 && f.price * f.qty >= 0;
      Quotient(h.avg * h.position + f.price * f.qty, h.position + f.qty);
    }
  }

  // ---------------------------------------------------------------- rounding drift

  /** A buy of qty shares at a bar closing at close. */
  datatype Purchase = Purchase(close: int, qty: int)

  /** Purchases of some shares at a positive price each. */
  predicate Payable(v: VenueConfig, buys: seq<Purchase>) {
    forall i :: 0 <= i < |buys| ==> FillPrice(v, Buy, buys[i].close) >= 1 && buys[i].qty > 0
  }

  function Trade(v: VenueConfig, mode: TradingMode, side: Side, close: int, qty: int, avg: int): Fill
  {
    var p := FillPrice(v, side, close);
    Fill(0, 0, 0, side, qty, p, Fees(v, side, p, qty), CashImpact(v, side, qty, close, mode, avg), 0)
  }

  /** Starting flat, the holding after the purchases. */
  function Bought(v: VenueConfig, mode: TradingMode, cash: int, buys: seq<Purchase>): Holding
    requires Payable(v, buys)
  {
    if buys == [] then Holding(cash, 0, 0, 0)
    else
      var n := |buys| - 1;
      var h := Bought(v, mode, cash, buys[..n]);
      ApplyFill(h, Trade(v, mode, Buy, buys[n].close, buys[n].qty, h.avg))
  }

  function Shares(buys: seq<Purchase>): int {
    if buys == [] then 0 else Shares(buys[..|buys| - 1]) + buys[|buys| - 1].qty
  }

  /** What the shares really cost, to the paisa. */
  function Cost(v: VenueConfig, buys: seq<Purchase>): int {
    if buys == [] then 0
    else
      var b := buys[|buys| - 1];
      Cost(v, buys[..|buys| - 1]) + FillPrice(v, Buy, b.close) * b.qty
  }

  function BuyFeesPaid(v: VenueConfig, buys: seq<Purchase>): int {
    if buys == [] then 0
    else
      var b := buys[|buys| - 1];
      BuyFeesPaid(v, buys[..|buys| - 1]) + Fees(v, Buy, FillPrice(v, Buy, b.close), b.qty)
  }

  function MarginPaid(v: VenueConfig, mode: TradingMode, buys: seq<Purchase>): int
  {
    if buys == [] then 0
    else
      var b := buys[|buys| - 1];
      MarginPaid(v, mode, buys[..|buys| - 1]) + Margin(v, mode, FillPrice(v, Buy, b.close), b.qty)
  }

  // Floor division by a variable divisor, by quotient and remainder.

  lemma Quotient(x: nat, m: int)
    requires m > 0
    ensures (x / m) * m <= x < (x / m) * m + m && x / m >= 0
  {
    assert x == (x / m) * m + x % m;
  }

  lemma ProductAtLeast(q: int, m: int)
    requires q >= 0 && m >= 1
    ensures q * m >= q
  {
    assert q * m == q + q * (m - 1);
    assert q * (m - 1) >= 0;
  }

  /** Comparing multiples of m compares the factors. */
  lemma FactorOrder(a: int, b: int, m: int)
    requires m > 0 && a * m < b * m + m
    ensures a <= b
  {
    var more := a - b - 1;
    assert a * m == (b + 1) * m + more * m;
    if more >= 0 { ProductAtLeast(more, m); }
  }

  lemma FloorAdd(a: nat, b: nat, m: int)
    requires m > 0
    ensures a / m + b / m <= (a + b) / m <= a / m + b / m + 1
  {
    Quotient(a, m); Quotient(b, m); Quotient(a + b, m);
    var x, y, z := a / m, b / m, (a + b) / m;
    assert (x + y) * m == x * m + y * m;
    assert (x + y + 1) * m == x * m + y * m + m;
    FactorOrder(x + y, z, m);
    FactorOrder(z, x + y + 1, m);
  }

  lemma FloorGap(a: nat, b: nat, m: int)
    requires m > 0 && a <= b
    ensures 0 <= b / m - a / m <= b - a
  {
    Quotient(a, m); Quotient(b, m);
    var x, z := a / m, b / m;
    FactorOrder(x, z, m);
    // k * m < b - a, so z - x <= b - a
    var k := z - x - 1;
    assert (z - x) * m == k * m + m && (z - x) * m == z * m - x * m;
    if k >= 0 { ProductAtLeast(k, m); }
  }

  lemma AverageStep(avg: int, position: int, price: int, qty: int)
    requires avg >= 1 && position > 0 && price >= 1 && qty > 0
    ensures var a := MergeAverage(avg, position, price, qty);
      a >= 1 && 0 <= avg * position + price * qty - a * (position + qty) <= position + qty - 1
  {
    ProductAtLeast(position, avg);
    ProductAtLeast(qty, price);
    assert position * avg == avg * position && qty * price == price * qty;
    var n, q := avg * position + price * qty, position + qty;
    Quotient(n, q);
    AtLeastOne(n, q);
  }

  lemma AtLeastOne(x: int, m: int)
    requires x >= m > 0
    ensures x / m >= 1
  {
    var q := x / m;
    assert q * m == x - x % m > 0;
    assert q <= 0 ==> q * m <= 0;
  }

  lemma ProductsGrow(m: nat, x: nat, y: nat)
    requires x <= y
    ensures 0 <= m * x <= m * y
  {
    var d := y - x;
    assert y == x + d && m * y == m * x + m * d;
  }

  lemma LostStep(lost: int, k: int, q0: int, q1: int, r: int)
    requires k >= 1 && 1 <= q0 <= q1 && 0 <= lost <= (k - 1) * (q0 - 1) && 0 <= r <= q1 - 1
    ensures 0 <= lost + r <= k * (q1 - 1)
  {
    var m, x, y := k - 1, q0 - 1, q1 - 1;
    ProductsGrow(m, x, y);
    assert k * y == m * y + y;
  }

  /** After k purchases: cash, position, and the notional lost by flooring the average price. */
  lemma {:induction false} BoughtFacts(v: VenueConfig, mode: TradingMode, cash: int, buys: seq<Purchase>)
    requires Payable(v, buys) && buys != []
    ensures var h := Bought(v, mode, cash, buys);
      && h.position == Shares(buys) > 0 && h.avg >= 1 && h.realized == 0
      && h.cash == cash - MarginPaid(v, mode, buys) - BuyFeesPaid(v, buys)
      && 0 <= Cost(v, buys) - h.avg * h.position <= (|buys| - 1) * (Shares(buys) - 1)
  {
    hide Fees; hide Margin; hide MergeAverage;
    var n := |buys| - 1;
    var b := buys[n];
    var p := FillPrice(v, Buy, b.close);
    if n == 0 {
      assert buys[..n] == [];
    } else {
      BoughtFacts(v, mode, cash, buys[..n]);
      var h := Bought(v, mode, cash, buys[..n]);
      AverageStep(h.avg, h.position, p, b.qty);
      var a := MergeAverage(h.avg, h.position, p, b.qty);
      LostStep(Cost(v, buys[..n]) - h.avg * h.position, n, h.position, h.position + b.qty,
               h.avg * h.position + p * b.qty - a * (h.position + b.qty));
    }
  }

  /** Splitting a notional over k purchases loses less than one paisa of margin per purchase. */
  lemma {:induction false} MarginFacts(v: VenueConfig, mode: TradingMode, buys: seq<Purchase>)
    requires Payable(v, buys) && buys != []
    ensures Cost(v, buys) >= 0
    ensures var m := Cost(v, buys) / v.Leverage(mode);
      MarginPaid(v, mode, buys) <= m <= MarginPaid(v, mode, buys) + |buys| - 1
  {
    var n := |buys| - 1;
    var b := buys[n];
    var p := FillPrice(v, Buy, b.close);
    ProductAtLeast(b.qty, p);
    assert p * b.qty == b.qty * p;
    if n == 0 {
      assert buys[..n] == [];
    } else {
      MarginFacts(v, mode, buys[..n]);
      FloorAdd(Cost(v, buys[..n]), p * b.qty, v.Leverage(mode));
    }
  }

  /** Cash change of buying in k steps and selling everything at once, minus the true P&L. */
  function Drift(v: VenueConfig, mode: TradingMode, cash: int, buys: seq<Purchase>, sellClose: int): int
    requires Payable(v, buys) && buys != [] && Shares(buys) > 0
  {
    var h := Bought(v, mode, cash, buys);
    var q := Shares(buys);
    var p := FillPrice(v, Sell, sellClose);
    var after := ApplyFill(h, Trade(v, mode, Sell, sellClose, q, h.avg));
    (after.cash - cash) - (p * q - Cost(v, buys) - BuyFeesPaid(v, buys) - Fees(v, Sell, p, q))
  }

  /** Rounding only ever favours the holder, by less than the notional lost to flooring plus one
      paisa per extra purchase; a single purchase is settled to the paisa. */
  lemma DriftIsBounded(v: VenueConfig, mode: TradingMode, cash: int, buys: seq<Purchase>, sellClose: int)
    requires Payable(v, buys) && buys != []
    ensures Shares(buys) > 0
    ensures var h := Bought(v, mode, cash, buys); var lost := Cost(v, buys) - h.avg * Shares(buys);
      && 0 <= lost <= (|buys| - 1) * (Shares(buys) - 1)
      && 0 <= Drift(v, mode, cash, buys, sellClose) <= lost + |buys| - 1
    ensures |buys| == 1 ==> Drift(v, mode, cash, buys, sellClose) == 0
    ensures var h := Bought(v, mode, cash, buys);
      Drift(v, mode, cash, buys, sellClose) ==
      Cost(v, buys) - h.avg * Shares(buys) - MarginPaid(v, mode, buys) + (h.avg * Shares(buys)) / v.Leverage(mode)
    ensures ApplyFill(Bought(v, mode, cash, buys),
      Trade(v, mode, Sell, sellClose, Shares(buys), Bought(v, mode, cash, buys).avg)).position == 0
  {
    BoughtFacts(v, mode, cash, buys);
    MarginFacts(v, mode, buys);
    hide Fees; hide Bought; hide Cost; hide MarginPaid; hide BuyFeesPaid; hide Shares; hide FillPrice;
    var h := Bought(v, mode, cash, buys);
    var q := Shares(buys);
    ProductAtLeast(h.avg, q);
    FloorGap(h.avg * q, Cost(v, buys), v.Leverage(mode));
  }

  /** The venue only fills a buy that the cash covers. */
  lemma BuyKeepsCashNonNegative(v: VenueConfig, mode: TradingMode, h: Holding, close: int, qty: int)
    requires Accepts(v, Buy, qty, close, mode, h.cash, h.position)
    ensures ApplyFill(h, Trade(v, mode, Buy, close, qty, h.avg)).cash >= 0
  {}

  /** Two purchases can already gain two paise: 1 share at Rs 0.05 and 2 at Rs 0.06, sold together. */
  lemma DriftCanBePositive(cash: int, sellClose: int)
    ensures Payable(DEFAULT_VENUE, [Purchase(4, 1), Purchase(5, 2)]) && Shares([Purchase(4, 1), Purchase(5, 2)]) == 3
    ensures Drift(DEFAULT_VENUE, Mis, cash, [Purchase(4, 1), Purchase(5, 2)], sellClose) == 2
  {
    hide Fees; hide Shares; hide Cost; hide MarginPaid; hide Bought;
    var b1, b2 := Purchase(4, 1), Purchase(5, 2);
    NoPurchase(DEFAULT_VENUE, Mis, cash);
    OneMore(DEFAULT_VENUE, Mis, cash, [], b1);
    assert [] + [b1] == [b1];
    assert Shares([b1]) == 1 && Cost(DEFAULT_VENUE, [b1]) == 5 && MarginPaid(DEFAULT_VENUE, Mis, [b1]) == 1;
    assert Bought(DEFAULT_VENUE, Mis, cash, [b1]).position == 1 && Bought(DEFAULT_VENUE, Mis, cash, [b1]).avg == 5;
    OneMore(DEFAULT_VENUE, Mis, cash, [b1], b2);
    assert [b1] + [b2] == [b1, b2];
    assert Shares([b1, b2]) == 3 && Cost(DEFAULT_VENUE, [b1, b2]) == 17
      && MarginPaid(DEFAULT_VENUE, Mis, [b1, b2]) == 3;
    assert MergeAverage(5, 1, 6, 2) == 5;
    assert Bought(DEFAULT_VENUE, Mis, cash, [b1, b2]).avg == 5;
    hide Drift; hide ApplyFill; hide Trade; hide MergeAverage;
    DriftIsBounded(DEFAULT_VENUE, Mis, cash, [b1, b2], sellClose);
  }

  lemma NoPurchase(v: VenueConfig, mode: TradingMode, cash: int)
    requires Payable(v, [])
    ensures Shares([]) == 0 && Cost(v, []) == 0 && MarginPaid(v, mode, []) == 0
      && Bought(v, mode, cash, []) == Holding(cash, 0, 0, 0)
  {}

  lemma OneMore(v: VenueConfig, mode: TradingMode, cash: int, buys: seq<Purchase>, b: Purchase)
    requires Payable(v, buys) && FillPrice(v, Buy, b.close) >= 1 && b.qty > 0
    ensures var p := FillPrice(v, Buy, b.close); var h := Bought(v, mode, cash, buys); var all := buys + [b];
      && Payable(v, all)
      && Shares(all) == Shares(buys) + b.qty
      && Cost(v, all) == Cost(v, buys) + p * b.qty
      && MarginPaid(v, mode, all) == MarginPaid(v, mode, buys) + Margin(v, mode, p, b.qty)
      && Bought(v, mode, cash, all) == ApplyFill(h, Trade(v, mode, Buy, b.close, b.qty, h.avg))
  {
    assert (buys + [b])[..|buys|] == buys;
  }
}
