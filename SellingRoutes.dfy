/** The sale workflow: a per-line availability check against the stock before the sale, the sale
    header and its lines, the oldest-first depletion of the stock lot by lot, and the customer's
    receivable; and the sale list. */
module SellingRoutes {
  import opened Common
  import opened Schema
  import opened Query
  import opened StockLedger
  import opened MoneyLedger
  import opened Database

  /** A line's amount: quantity times unit price. */
  function LineAmount(l: SaleLine): real
  {
    l.quantity * l.unitPrice
  }

  /** The sale total: the sum over its lines of quantity times unit price. */
  function LinesTotal(lines: seq<SaleLine>): real
  {
    if lines == [] then 0.0 else LinesTotal(lines[..|lines| - 1]) + LineAmount(lines[|lines| - 1])
  }

  /** Quantity of material `m` the lines ask for. */
  function Demand(lines: seq<SaleLine>, m: nat): real
  {
    if lines == [] then 0.0
    else Demand(lines[..|lines| - 1], m) + (if lines[|lines| - 1].material == m then lines[|lines| - 1].quantity else 0.0)
  }

  /** The check's verdict on one line: the tenant's summed stock of the material is below the
      line's quantity. Every line is judged against the same stock, the stock before the sale. */
  predicate Short(lots: seq<StockLot>, t: nat, l: SaleLine)
  {
    Available(lots, t, l.material) < l.quantity
  }

  /** The first line the check rejects, if any. */
  function FirstShort(lots: seq<StockLot>, t: nat, lines: seq<SaleLine>): (r: Option<nat>)
    ensures r.Some? ==> (r.value < |lines| && Short(lots, t, lines[r.value])
                         && forall j :: 0 <= j < r.value ==> !Short(lots, t, lines[j]))
    ensures r.None? ==> forall j :: 0 <= j < |lines| ==> !Short(lots, t, lines[j])
  {
    if lines == [] then None
    else if Short(lots, t, lines[0]) then Some(0)
    else
      var rest := FirstShort(lots, t, lines[1..]);
      assert forall j :: 1 <= j < |lines| ==> lines[j] == lines[1..][j - 1];
      if rest.None? then None else Some(rest.value + 1)
  }

  /** The check loop: the first line whose quantity exceeds the stock of its material aborts the
      sale; otherwise the loop has summed the sale total. */
  method CheckStock(lots: seq<StockLot>, t: nat, lines: seq<SaleLine>) returns (r: Result<real>)
    ensures r.Ok? <==> FirstShort(lots, t, lines).None?
    ensures r.Ok? ==> r.value == LinesTotal(lines)
    ensures r.Err? ==> r.error == InsufficientStock(lines[FirstShort(lots, t, lines).value].material)
  {
    var total := 0.0;
    var i := 0;
    while i < |lines|
      invariant 0 <= i <= |lines|
      invariant forall j :: 0 <= j < i ==> !Short(lots, t, lines[j])
      invariant total == LinesTotal(lines[..i])
    {
      if Available(lots, t, lines[i].material) < lines[i].quantity {
        return Err(InsufficientStock(lines[i].material));
      }
      assert lines[..i + 1][..i] == lines[..i];
      total := total + LineAmount(lines[i]);
      i := i + 1;
    }
    assert lines[..|lines|] == lines;
    r := Ok(total);
  }

  /** The sale lines stored for sale `sale`, one per request line, in request order. */
  function SaleItemsOf(sale: nat, lines: seq<SaleLine>): (r: seq<SaleItem>)
    ensures |r| == |lines|
  {
    if lines == [] then []
    else
      var l := lines[|lines| - 1];
      SaleItemsOf(sale, lines[..|lines| - 1]) + [SaleItem(sale, l.material, l.quantity, l.unitPrice, LineAmount(l))]
  }

  function ItemsTotal(items: seq<SaleItem>): real
  {
    if items == [] then 0.0 else ItemsTotal(items[..|items| - 1]) + items[|items| - 1].total
  }

  /** The stored lines of a sale add up to its header's total. */
  lemma {:induction false} SaleItemsAddUp(sale: nat, lines: seq<SaleLine>)
    ensures ItemsTotal(SaleItemsOf(sale, lines)) == LinesTotal(lines)
    ensures forall k :: 0 <= k < |lines| ==>
      SaleItemsOf(sale, lines)[k] == SaleItem(sale, lines[k].material, lines[k].quantity, lines[k].unitPrice, LineAmount(lines[k]))
  {
    if lines != [] {
      var front := lines[..|lines| - 1];
      SaleItemsAddUp(sale, front);
      var items := SaleItemsOf(sale, lines);
      assert items[..|items| - 1] == SaleItemsOf(sale, front);
    }
  }

  /** The stock after the sale: each line in turn depletes its material, choosing its lots
      afresh from the stock the earlier lines left. */
  function SellLines(lots: seq<StockLot>, t: nat, lines: seq<SaleLine>, now: nat): (r: seq<StockLot>)
    ensures |r| == |lots|
  {
    if lines == [] then lots
    else
      var l := lines[|lines| - 1];
      DepleteLine(SellLines(lots, t, lines[..|lines| - 1], now), t, l.material, l.quantity, now)
  }

  /** Depletion changes quantities and timestamps only, so the lot keys stay unique. */
  lemma DepleteLineKeepsKeys(lots: seq<StockLot>, t: nat, m: nat, qty: real, now: nat)
    requires UniqueKeys(lots)
    ensures UniqueKeys(DepleteLine(lots, t, m, qty, now))
  {
    var r := DepleteLine(lots, t, m, qty, now);
    DepleteLineEffect(lots, t, m, qty, now);
    assert forall j :: 0 <= j < |lots| ==> Key(r[j]) == Key(lots[j]);
  }

  /** One visit of the depletion loop, on a table whose unvisited lots still hold the quantities
      the query returned: it is the first step of the walk. */
  lemma VisitStep(cur: seq<StockLot>, rows: seq<StockLot>, order: seq<nat>, k: nat, remaining: real, now: nat)
    requires Indices(order, |rows|) && Distinct(order) && |cur| == |rows| && k < |order| && remaining > 0.0
    requires forall j :: k <= j < |order| ==> cur[order[j]] == rows[order[j]]
    ensures var i := order[k];
      var deduct := Min(remaining, rows[i].quantity);
      var next := cur[i := cur[i].(quantity := cur[i].quantity - deduct, lastUpdated := now)];
      && DepleteAlong(next, order[k + 1..], remaining - deduct, now) == DepleteAlong(cur, order[k..], remaining, now)
      && forall j :: k < j < |order| ==> next[order[j]] == rows[order[j]]
  {
    assert order[k..][1..] == order[k + 1..];
    assert order[k..][0] == order[k];
  }

  /** The walk over the rows the lot query returned, in their order: take `min(remaining, lot
      quantity)` from each, refreshing its timestamp, until nothing remains. The quantities
      compared are the ones the query returned. */
  method Walk(db: Store, rows: seq<StockLot>, order: seq<nat>, qty: real, now: nat)
    requires db.stock == rows && Indices(order, |rows|) && Distinct(order)
    modifies db`stock
    ensures db.stock == DepleteAlong(rows, order, qty, now)
  {
    var remaining := qty;
    var k := 0;
    while k < |order|
      invariant 0 <= k <= |order| && |db.stock| == |rows|
      invariant forall j :: k <= j < |order| ==> db.stock[order[j]] == rows[order[j]]
      invariant DepleteAlong(db.stock, order[k..], remaining, now) == DepleteAlong(rows, order, qty, now)
    {
      if remaining <= 0.0 {
        break;
      }
      var i := order[k];
      var deduct := Min(remaining, rows[i].quantity);
      VisitStep(db.stock, rows, order, k, remaining, now);
      db.stock := db.stock[i := db.stock[i].(quantity := db.stock[i].quantity - deduct, lastUpdated := now)];
      remaining := remaining - deduct;
      k := k + 1;
    }
    assert order[..] == order;
  }

  /** A sale changes quantities and timestamps only, so the lot keys stay unique. */
  lemma {:induction false} SellLinesKeepKeys(lots: seq<StockLot>, t: nat, lines: seq<SaleLine>, now: nat)
    requires UniqueKeys(lots)
    ensures UniqueKeys(SellLines(lots, t, lines, now))
  {
    if lines != [] {
      var l := lines[|lines| - 1];
      SellLinesKeepKeys(lots, t, lines[..|lines| - 1], now);
      DepleteLineKeepsKeys(SellLines(lots, t, lines[..|lines| - 1], now), t, l.material, l.quantity, now);
    }
  }

  /** The depletion of one line: select the tenant's positive lots of the material oldest first,
      then walk them. */
  method DepleteStock(db: Store, t: nat, m: nat, qty: real, now: nat)
    modifies db`stock
    ensures db.stock == DepleteLine(old(db.stock), t, m, qty, now)
  {
    var rows := db.stock;
    var order := FifoOrder(rows, t, m);
    assert Distinct(order) by {
      FifoOrderSpec(rows, t, m);
    }
    Walk(db, rows, order, qty, now);
  }

  lemma SaleItemsStep(items: seq<SaleItem>, sale: nat, lines: seq<SaleLine>, k: nat)
    requires k < |lines|
    ensures items + SaleItemsOf(sale, lines[..k + 1])
         == (items + SaleItemsOf(sale, lines[..k])) + [SaleItem(sale, lines[k].material, lines[k].quantity, lines[k].unitPrice, LineAmount(lines[k]))]
  {
    assert lines[..k + 1][..k] == lines[..k];
  }

  lemma SellLinesStep(lots: seq<StockLot>, t: nat, lines: seq<SaleLine>, k: nat, now: nat)
    requires k < |lines|
    ensures SellLines(lots, t, lines[..k + 1], now)
         == DepleteLine(SellLines(lots, t, lines[..k], now), t, lines[k].material, lines[k].quantity, now)
  {
    assert lines[..k + 1][..k] == lines[..k];
  }

  /** One pass of the loop: store the line at quantity times unit price, then deplete its
      material. */
  method RecordLine(db: Store, sale: nat, t: nat, l: SaleLine, now: nat)
    modifies db`saleItems, db`stock
    ensures db.saleItems == old(db.saleItems) + [SaleItem(sale, l.material, l.quantity, l.unitPrice, LineAmount(l))]
    ensures db.stock == DepleteLine(old(db.stock), t, l.material, l.quantity, now)
  {
    var itemTotal := LineAmount(l);
    db.saleItems := db.saleItems + [SaleItem(sale, l.material, l.quantity, l.unitPrice, itemTotal)];
    DepleteStock(db, t, l.material, l.quantity, now);
  }

  /** The loop over the sale lines: store each line, then deplete its material. */
  method RecordSaleLines(db: Store, sale: nat, t: nat, lines: seq<SaleLine>, now: nat)
    modifies db`saleItems, db`stock
    ensures db.saleItems == old(db.saleItems) + SaleItemsOf(sale, lines)
    ensures db.stock == SellLines(old(db.stock), t, lines, now)
  {
    ghost var stock0, items0 := db.stock, db.saleItems;
    var k := 0;
    while k < |lines|
      invariant 0 <= k <= |lines|
      invariant db.saleItems == items0 + SaleItemsOf(sale, lines[..k])
      invariant db.stock == SellLines(stock0, t, lines[..k], now)
    {
      SaleItemsStep(items0, sale, lines, k);
      SellLinesStep(stock0, t, lines, k, now);
      RecordLine(db, sale, t, lines[k], now);
      k := k + 1;
    }
    assert lines[..|lines|] == lines;
  }

  /** The sale's bookkeeping keeps every balance equal to its ledger account. */
  lemma SalePostKeepsBalances(partners: seq<Partner>, money: seq<MoneyRow>, t: nat, p: nat, total: real, now: nat)
    requires BalancesMatch(partners, money) && p < |partners|
    ensures BalancesMatch(partners[p := partners[p].(balance := partners[p].balance + total)],
                          money + [MoneyRow(t, p, Receipt, total, SalePosting, now)])
  {
    var row := MoneyRow(t, p, Receipt, total, SalePosting, now);
    var partners' := partners[p := partners[p].(balance := partners[p].balance + total)];
    forall q | 0 <= q < |partners'| ensures partners'[q].balance == Net(money + [row], q) {
      NetAppend(money, row, q);
    }
  }

  /** Raise the customer's receivable by the sale total and post the expected receipt. */
  method PostSale(db: Store, t: nat, p: nat, total: real, now: nat)
    requires p < |db.partners|
    modifies db`partners, db`money
    ensures db.partners == old(db.partners)[p := old(db.partners)[p].(balance := old(db.partners)[p].balance + total)]
    ensures db.money == old(db.money) + [MoneyRow(t, p, Receipt, total, SalePosting, now)]
  {
    db.partners := db.partners[p := db.partners[p].(balance := db.partners[p].balance + total)];
    db.money := db.money + [MoneyRow(t, p, Receipt, total, SalePosting, now)];
  }

  /** A sale keeps the store consistent: the depletion keeps the lot keys unique and the
      bookkeeping keeps every balance equal to its ledger account. */
  lemma SaleKeepsConsistent(partners: seq<Partner>, recs: seq<Option<ReceivingTx>>, items: seq<Option<ReceivingItem>>,
                            stock: seq<StockLot>, money: seq<MoneyRow>, t: nat, p: nat, lines: seq<SaleLine>,
                            total: real, now: nat)
    requires Consistent(partners, recs, items, stock, money) && p < |partners|
    ensures Consistent(partners[p := partners[p].(balance := partners[p].balance + total)], recs, items,
                       SellLines(stock, t, lines, now), money + [MoneyRow(t, p, Receipt, total, SalePosting, now)])
  {
    SellLinesKeepKeys(stock, t, lines, now);
    SalePostKeepsBalances(partners, money, t, p, total, now);
  }

  /** The writes of a sale that passed the check: the header at `total`, its lines and their
      depletion, then the bookkeeping. */
  method ApplySale(db: Store, t: nat, partner: nat, lines: seq<SaleLine>, total: real, now: nat) returns (id: nat)
    requires db.Valid() && partner < |db.partners|
    modifies db`sales, db`saleItems, db`stock, db`partners, db`money
    ensures db.Valid()
    ensures id == |old(db.sales)|
    ensures db.sales == old(db.sales) + [Sale(t, partner, total, now)]
    ensures db.saleItems == old(db.saleItems) + SaleItemsOf(id, lines)
    ensures db.stock == SellLines(old(db.stock), t, lines, now)
    ensures db.partners == old(db.partners)[partner := old(db.partners)[partner].(balance := old(db.partners)[partner].balance + total)]
    ensures db.money == old(db.money) + [MoneyRow(t, partner, Receipt, total, SalePosting, now)]
  {
    SaleKeepsConsistent(db.partners, db.receivings, db.receivingItems, db.stock, db.money, t, partner, lines, total, now);
    id := |db.sales|;
    db.sales := db.sales + [Sale(t, partner, total, now)];
    RecordSaleLines(db, id, t, lines, now);
    PostSale(db, t, partner, total, now);
  }

  /** Why a sale is refused, if it is: the first line short of stock, else an unknown partner. */
  function SaleRejection(lots: seq<StockLot>, partnerCount: nat, t: nat, partner: nat, lines: seq<SaleLine>): Option<Error>
  {
    var short := FirstShort(lots, t, lines);
    if short.Some? then Some(InsufficientStock(lines[short.value].material))
    else if partner < partnerCount then None
    else Some(UnknownPartner)
  }

  /** The checks before any write: the stock check loop, then the partner reference. */
  method CheckSale(lots: seq<StockLot>, partnerCount: nat, t: nat, partner: nat, lines: seq<SaleLine>) returns (r: Result<real>)
    ensures r.Err? <==> SaleRejection(lots, partnerCount, t, partner, lines).Some?
    ensures r.Err? ==> r.error == SaleRejection(lots, partnerCount, t, partner, lines).value
    ensures r.Ok? ==> r.value == LinesTotal(lines)
  {
    r := CheckStock(lots, t, lines);
    if r.Ok? && partner >= partnerCount {
      r := Err(UnknownPartner);
    }
  }

  /** `POST /selling`: check every line against the stock before the sale, then store the sale at
      the summed total, store and deplete each line, raise the customer's balance by the total
      and post the receipt row. A short line or an unknown partner aborts with nothing written. */
  method CreateSale(db: Store, t: nat, partner: nat, lines: seq<SaleLine>, now: nat) returns (r: Result<nat>)
    requires db.Valid()
    modifies db`sales, db`saleItems, db`stock, db`partners, db`money
    ensures db.Valid()
    ensures r.Err? <==> SaleRejection(old(db.stock), |old(db.partners)|, t, partner, lines).Some?
    ensures r.Err? ==> r.error == SaleRejection(old(db.stock), |old(db.partners)|, t, partner, lines).value && unchanged(db)
    ensures r.Ok? ==>
      var total := LinesTotal(lines);
      && r.value == |old(db.sales)|
      && db.sales == old(db.sales) + [Sale(t, partner, total, now)]
      && db.saleItems == old(db.saleItems) + SaleItemsOf(r.value, lines)
      && db.stock == SellLines(old(db.stock), t, lines, now)
      && db.partners == old(db.partners)[partner := old(db.partners)[partner].(balance := old(db.partners)[partner].balance + total)]
      && db.money == old(db.money) + [MoneyRow(t, partner, Receipt, total, SalePosting, now)]
  {
    var checked := CheckSale(db.stock, |db.partners|, t, partner, lines);
    if checked.Err? {
      return Err(checked.error);
    }
    var id := ApplySale(db, t, partner, lines, checked.value, now);
    r := Ok(id);
  }

  lemma DemandSplit(lines: seq<SaleLine>, m: nat)
    requires lines != []
    ensures Demand(lines, m) == Demand(lines[..|lines| - 1], m)
      + (if lines[|lines| - 1].material == m then lines[|lines| - 1].quantity else 0.0)
  {
  }

  /** When every material's total demand over the sale is within its stock, the sale deducts
      exactly that demand from every material of the tenant. */
  lemma {:induction false} SellLinesWithinStock(lots: seq<StockLot>, t: nat, lines: seq<SaleLine>, now: nat)
    requires forall k :: 0 <= k < |lines| ==> lines[k].quantity >= 0.0
    requires forall m :: Demand(lines, m) <= Available(lots, t, m)
    ensures forall m :: Available(SellLines(lots, t, lines, now), t, m) == Available(lots, t, m) - Demand(lines, m)
  {
    if lines != [] {
      var front := lines[..|lines| - 1];
      var l := lines[|lines| - 1];
      forall m ensures Demand(front, m) <= Available(lots, t, m) {
        DemandSplit(lines, m);
      }
      SellLinesWithinStock(lots, t, front, now);
      var mid := SellLines(lots, t, front, now);
      DemandSplit(lines, l.material);
      CoveredLineDeductsInFull(mid, t, l.material, l.quantity, now);
      DepleteLineEffect(mid, t, l.material, l.quantity, now);
      forall m ensures Available(SellLines(lots, t, lines, now), t, m) == Available(lots, t, m) - Demand(lines, m) {
        DemandSplit(lines, m);
      }
    }
  }

  /** A sale never moves the stock of another tenant. */
  lemma {:induction false} SellLinesKeepsOtherTenants(lots: seq<StockLot>, t: nat, lines: seq<SaleLine>, now: nat)
    ensures forall t', m :: t' != t ==> Available(SellLines(lots, t, lines, now), t', m) == Available(lots, t', m)
  {
    if lines != [] {
      var l := lines[|lines| - 1];
      SellLinesKeepsOtherTenants(lots, t, lines[..|lines| - 1], now);
      DepleteLineEffect(SellLines(lots, t, lines[..|lines| - 1], now), t, l.material, l.quantity, now);
    }
  }

  /** The per-line check against the stock before the sale admits two lines that together ask
      for twice the stock: one lot of 10 and two lines of 10 of its material pass the check, the
      sale records 20 sold, and the stock drops by 10 only, to zero, not to minus 10. */
  lemma PerLineCheckAdmitsOversell()
    ensures var lots := [StockLot(0, 0, 0, 10.0, 1.0, 0)];
      var lines := [SaleLine(0, 10.0, 2.0), SaleLine(0, 10.0, 2.0)];
      && FirstShort(lots, 0, lines).None?
      && Demand(lines, 0) == 20.0
      && Available(SellLines(lots, 0, lines, 1), 0, 0) == 0.0
  {
    var lots := [StockLot(0, 0, 0, 10.0, 1.0, 0)];
    var lines := [SaleLine(0, 10.0, 2.0), SaleLine(0, 10.0, 2.0)];
    assert Available(lots, 0, 0) == StockOf(lots, 0, 0, 0) + Share(lots[0], 0, 0) == 10.0;
    assert lines[..1] == [SaleLine(0, 10.0, 2.0)];
    assert FirstShort(lots, 0, lines).None? by {
      assert !Short(lots, 0, lines[0]) && !Short(lots, 0, lines[1]);
    }
    var mid := DepleteLine(lots, 0, 0, 10.0, 1);
    assert SellLines(lots, 0, lines[..1], 1) == mid by {
      assert lines[..1][..0] == [];
    }
    CoveredLineDeductsInFull(lots, 0, 0, 10.0, 1);
    DepleteLineEffect(lots, 0, 0, 10.0, 1);
    assert Available(mid, 0, 0) == 0.0;
    assert mid[0].quantity == 0.0 by {
      assert Available(mid, 0, 0) == StockOf(mid, 0, 0, 0) + Share(mid[0], 0, 0);
    }
    assert PositiveStock(mid, 0, 0) == 0.0 by {
      assert PositiveStock(mid, 0, 0) == PositiveStockOf(mid, 0, 0, 0) + 0.0;
    }
    DepleteLineEffect(mid, 0, 0, 10.0, 1);
  }

  /** A whole sale only drains positive lots of each material. */
  lemma {:induction false} SellLinesDrains(lots: seq<StockLot>, t: nat, lines: seq<SaleLine>, now: nat, m: nat)
    ensures DrainedOnly(lots, SellLines(lots, t, lines, now), t, m)
  {
    if lines != [] {
      var l := lines[|lines| - 1];
      var mid := SellLines(lots, t, lines[..|lines| - 1], now);
      SellLinesDrains(lots, t, lines[..|lines| - 1], now, m);
      DepleteLineDrains(mid, t, l.material, l.quantity, now, m);
      DrainedOnlyTransitive(lots, mid, SellLines(lots, t, lines, now), t, m);
    }
  }

  /** A sale takes at most the positive stock of a material, whatever quantity it records. */
  lemma SaleDrawsAtMostPositiveStock(lots: seq<StockLot>, t: nat, lines: seq<SaleLine>, now: nat, m: nat)
    ensures Available(lots, t, m) - Available(SellLines(lots, t, lines, now), t, m) <= PositiveStock(lots, t, m)
  {
    SellLinesDrains(lots, t, lines, now, m);
    DrainedWithinPositive(lots, SellLines(lots, t, lines, now), t, m, |lots|);
  }

  /** Whenever the per-line check passes a sale whose lines together ask for more of a material
      than its positive stock, the stock of that material drops by less than the quantity the
      sale records for it. */
  lemma PerLineCheckOversells(lots: seq<StockLot>, t: nat, lines: seq<SaleLine>, now: nat, m: nat)
    requires FirstShort(lots, t, lines).None?
    requires PositiveStock(lots, t, m) < Demand(lines, m)
    ensures Available(lots, t, m) - Available(SellLines(lots, t, lines, now), t, m) < Demand(lines, m)
  {
    SaleDrawsAtMostPositiveStock(lots, t, lines, now, m);
  }

  function SaleDate(sales: seq<Sale>, k: nat): nat
  {
    if k < |sales| then sales[k].date else 0
  }

  /** `ORDER BY transaction_date DESC`. */
  function LaterSaleFirst(sales: seq<Sale>): (nat, nat) -> bool
  {
    (a: nat, b: nat) => SaleDate(sales, a) >= SaleDate(sales, b)
  }

  predicate SaleListed(sales: seq<Sale>, partners: seq<Partner>, t: nat, k: nat)
  {
    k < |sales| && sales[k].tenant == t && sales[k].partner < |partners|
  }

  /** `GET /selling`: exactly the tenant's sales joined to their partner, each once, newest first. */
  function ListSales(sales: seq<Sale>, partners: seq<Partner>, t: nat): (r: seq<nat>)
    ensures forall k: nat :: k in r <==> SaleListed(sales, partners, t, k)
    ensures Distinct(r)
    ensures forall i, j :: 0 <= i < j < |r| ==> r[i] < |sales| && r[j] < |sales| && sales[r[j]].date <= sales[r[i]].date
  {
    var r := SelectSorted(|sales|, (k: nat) => SaleListed(sales, partners, t, k), LaterSaleFirst(sales));
    assert forall k :: 0 <= k < |r| ==> r[k] in r;
    r
  }
}
