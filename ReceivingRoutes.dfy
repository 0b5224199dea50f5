/** The purchase workflow: create a purchase with its lines, approve an inspected purchase into
    stock and the partner's account, reject it, delete it while pending, and list purchases by
    status. */
module ReceivingRoutes {
  import opened Common
  import opened Schema
  import opened Query
  import opened StockLedger
  import opened MoneyLedger
  import opened Database

  /** Sum of gross weight times unit price over the request lines. */
  function LinesValue(lines: seq<ReceivingLine>): real
  {
    if lines == [] then 0.0 else LinesValue(lines[..|lines| - 1]) + lines[|lines| - 1].gross * lines[|lines| - 1].unitPrice
  }

  /** The logistics cost split evenly over the lines. With no lines the code still divides, but
      the quotient is never stored. */
  function LogisticsShare(logistics: Option<real>, count: nat): real
  {
    if count == 0 then 0.0 else OrZero(logistics) / count as real
  }

  /** The stored line for one request line: not inspected yet. */
  function LineItem(tx: nat, line: ReceivingLine, share: real): ReceivingItem
  {
    ReceivingItem(tx, line.material, line.gross, line.unitPrice, share, line.gross * line.unitPrice, None, None)
  }

  /** The lines a creation inserts, one per request line and in request order. */
  function NewItems(tx: nat, lines: seq<ReceivingLine>, share: real): (r: seq<Option<ReceivingItem>>)
    ensures |r| == |lines|
  {
    if lines == [] then []
    else NewItems(tx, lines[..|lines| - 1], share) + [Some(LineItem(tx, lines[|lines| - 1], share))]
  }

  /** The `j`-th inserted line is the `j`-th request line, not inspected yet. */
  lemma {:induction false} NewItemsAt(tx: nat, lines: seq<ReceivingLine>, share: real)
    ensures forall j :: 0 <= j < |lines| ==> NewItems(tx, lines, share)[j] == Some(LineItem(tx, lines[j], share))
  {
    if lines != [] {
      var front := lines[..|lines| - 1];
      NewItemsAt(tx, front, share);
      forall j | 0 <= j < |lines| ensures NewItems(tx, lines, share)[j] == Some(LineItem(tx, lines[j], share)) {
        if j < |front| {
          assert lines[j] == front[j];
        }
      }
    }
  }

  /** The creation handler's total: the logistics cost plus every line's purchase value. */
  method CreationTotal(logistics: Option<real>, lines: seq<ReceivingLine>) returns (total: real)
    ensures total == OrZero(logistics) + LinesValue(lines)
  {
    total := OrZero(logistics);
    var i := 0;
    while i < |lines|
      invariant 0 <= i <= |lines|
      invariant total == OrZero(logistics) + LinesValue(lines[..i])
    {
      assert lines[..i + 1][..i] == lines[..i];
      total := total + lines[i].gross * lines[i].unitPrice;
      i := i + 1;
    }
    assert lines[..|lines|] == lines;
  }

  function SharesOf(items: seq<Option<ReceivingItem>>): real
  {
    if items == [] then 0.0
    else SharesOf(items[..|items| - 1]) + (if items[|items| - 1].Some? then items[|items| - 1].value.logisticsShare else 0.0)
  }

  function ItemTotalsOf(items: seq<Option<ReceivingItem>>): real
  {
    if items == [] then 0.0
    else ItemTotalsOf(items[..|items| - 1]) + (if items[|items| - 1].Some? then items[|items| - 1].value.total else 0.0)
  }

  lemma OneMoreShare(n: real, share: real)
    ensures (n + 1.0) * share == n * share + share
  {
  }

  lemma {:induction false} NewItemsShares(tx: nat, lines: seq<ReceivingLine>, share: real)
    ensures SharesOf(NewItems(tx, lines, share)) == |lines| as real * share
  {
    if lines != [] {
      var front := lines[..|lines| - 1];
      NewItemsShares(tx, front, share);
      var r := NewItems(tx, lines, share);
      assert r[..|r| - 1] == NewItems(tx, front, share);
      assert r[|r| - 1].value.logisticsShare == share;
      assert |lines| as real == |front| as real + 1.0;
      OneMoreShare(|front| as real, share);
    }
  }

  lemma {:induction false} NewItemsTotals(tx: nat, lines: seq<ReceivingLine>, share: real)
    ensures ItemTotalsOf(NewItems(tx, lines, share)) == LinesValue(lines)
  {
    if lines != [] {
      var front := lines[..|lines| - 1];
      NewItemsTotals(tx, front, share);
      var r := NewItems(tx, lines, share);
      assert r[..|r| - 1] == NewItems(tx, front, share);
    }
  }

  /** The created lines account for the purchase: their shares add up to the logistics cost
      whenever there is a line, and their totals add up to the purchase value. */
  lemma CreatedLinesAccount(tx: nat, logistics: Option<real>, lines: seq<ReceivingLine>)
    ensures lines != [] ==> SharesOf(NewItems(tx, lines, LogisticsShare(logistics, |lines|))) == OrZero(logistics)
    ensures ItemTotalsOf(NewItems(tx, lines, LogisticsShare(logistics, |lines|))) == LinesValue(lines)
  {
    NewItemsShares(tx, lines, LogisticsShare(logistics, |lines|));
    NewItemsTotals(tx, lines, LogisticsShare(logistics, |lines|));
  }

  /** The gross value of a purchase grows by the value of its newly inserted lines. */
  lemma {:induction false} NewItemsGross(a: seq<Option<ReceivingItem>>, tx: nat, lines: seq<ReceivingLine>, share: real)
    ensures GrossValue(a + NewItems(tx, lines, share), tx) == GrossValue(a, tx) + LinesValue(lines)
  {
    if lines == [] {
      assert a + NewItems(tx, lines, share) == a;
    } else {
      var front := lines[..|lines| - 1];
      NewItemsGross(a, tx, front, share);
      var b := a + NewItems(tx, lines, share);
      assert b[..|b| - 1] == a + NewItems(tx, front, share);
    }
  }

  lemma CreateKeepsConsistent(partners: seq<Partner>, recs: seq<Option<ReceivingTx>>, items: seq<Option<ReceivingItem>>,
                              stock: seq<StockLot>, money: seq<MoneyRow>, tx: ReceivingTx, lines: seq<ReceivingLine>, share: real)
    requires Consistent(partners, recs, items, stock, money)
    requires tx.partner < |partners| && tx.status == Pending && tx.total == tx.logistics + LinesValue(lines)
    ensures Consistent(partners, recs + [Some(tx)], items + NewItems(|recs|, lines, share), stock, money)
  {
    var recs' := recs + [Some(tx)];
    var added := NewItems(|recs|, lines, share);
    var items' := items + added;
    NewItemsAt(|recs|, lines, share);
    assert forall j :: 0 <= j < |items'| && items'[j].Some? ==> ItemPriced(items'[j].value) by {
      forall j | 0 <= j < |items'| && items'[j].Some? ensures ItemPriced(items'[j].value) {
        if j >= |items| {
          assert items'[j] == added[j - |items|];
        }
      }
    }
    forall k | 0 <= k < |recs|
      ensures GrossValue(items', k) == GrossValue(items, k) && Uninspected(items', k) == Uninspected(items, k)
    {
      SumsAppendOthers(items, added, k);
    }
    SumsOfAbsent(items, |recs|);
    NewItemsGross(items, |recs|, lines, share);
    assert TotalsMatchItems(recs', items') by {
      forall k | 0 <= k < |recs'| && recs'[k].Some?
        ensures recs'[k].value.total == recs'[k].value.logistics + GrossValue(items', k)
      {
        if k < |recs| {
          assert recs'[k] == recs[k];
        }
      }
    }
    assert CompletedInspected(recs', items') by {
      forall k | 0 <= k < |recs'| && recs'[k].Some? && recs'[k].value.status in {Inspected, Approved}
        ensures Uninspected(items', k) == 0
      {
        assert k < |recs| && recs'[k] == recs[k];
      }
    }
    assert ItemsOwned(recs', items') by {
      forall j | 0 <= j < |items'| && items'[j].Some?
        ensures items'[j].value.tx < |recs'| && recs'[items'[j].value.tx].Some?
      {
        if j < |items| {
          assert items'[j] == items[j];
        } else {
          assert items'[j] == added[j - |items|];
        }
      }
    }
  }

  /** `POST /receiving`: insert the purchase, pending, at the provisional total, then one line per
      request line with an equal share of the logistics cost. An empty line list is accepted. The
      partner reference must resolve; nothing else is checked. */
  method CreateReceiving(db: Store, t: nat, partner: nat, logistics: Option<real>, lines: seq<ReceivingLine>, now: nat)
    returns (r: Result<nat>)
    requires db.Valid()
    modifies db`receivings, db`receivingItems
    ensures db.Valid()
    ensures r.Ok? <==> partner < |db.partners|
    ensures r.Err? ==> (r.error == UnknownPartner
      && db.receivings == old(db.receivings) && db.receivingItems == old(db.receivingItems))
    ensures r.Ok? ==> (r.value == |old(db.receivings)|
      && db.receivings == old(db.receivings)
           + [Some(ReceivingTx(t, partner, OrZero(logistics), OrZero(logistics) + LinesValue(lines), Pending, now))]
      && db.receivingItems == old(db.receivingItems) + NewItems(r.value, lines, LogisticsShare(logistics, |lines|)))
  {
    var total := CreationTotal(logistics, lines);
    if partner >= |db.partners| {
      return Err(UnknownPartner);
    }
    var id := |db.receivings|;
    var tx := ReceivingTx(t, partner, OrZero(logistics), total, Pending, now);
    CreateKeepsConsistent(db.partners, db.receivings, db.receivingItems, db.stock, db.money,
                          tx, lines, LogisticsShare(logistics, |lines|));
    db.receivings := db.receivings + [Some(tx)];
    var share := LogisticsShare(logistics, |lines|);
    ghost var items0 := db.receivingItems;
    var i := 0;
    while i < |lines|
      invariant 0 <= i <= |lines|
      invariant db.receivingItems == items0 + NewItems(id, lines[..i], share)
      modifies db`receivingItems
    {
      assert lines[..i + 1][..i] == lines[..i];
      db.receivingItems := db.receivingItems + [Some(LineItem(id, lines[i], share))];
      i := i + 1;
    }
    assert lines[..|lines|] == lines;
    r := Ok(id);
  }

  /** The purchase `id` exists, belongs to tenant `t` and is in one of the `allowed` states. */
  predicate InState(recs: seq<Option<ReceivingTx>>, id: nat, t: nat, allowed: set<Status>)
  {
    id < |recs| && recs[id].Some? && recs[id].value.tenant == t && recs[id].value.status in allowed
  }

  /** The ids below `n` of the lines of purchase `tx`, ascending. */
  function LinesOf(items: seq<Option<ReceivingItem>>, tx: nat, n: nat): (r: seq<nat>)
    requires n <= |items|
    ensures forall k :: 0 <= k < |r| ==> r[k] < n && InTx(items[r[k]], tx)
    ensures forall i, j :: 0 <= i < j < |r| ==> r[i] < r[j]
  {
    if n == 0 then []
    else
      var front := LinesOf(items, tx, n - 1);
      front + (if InTx(items[n - 1], tx) then [n - 1] else [])
  }

  /** Every line of the purchase below `n` is listed. */
  lemma {:induction false} LinesOfComplete(items: seq<Option<ReceivingItem>>, tx: nat, n: nat)
    requires n <= |items|
    ensures forall x :: 0 <= x < n && InTx(items[x], tx) ==> x in LinesOf(items, tx, n)
  {
    if n > 0 {
      LinesOfComplete(items, tx, n - 1);
      var front := LinesOf(items, tx, n - 1);
      forall x | 0 <= x < n && InTx(items[x], tx) ensures x in LinesOf(items, tx, n) {
        if x < n - 1 {
          assert x in front;
        } else {
          assert LinesOf(items, tx, n)[|front|] == x;
        }
      }
    }
  }

  /** `SELECT * FROM receiving_items WHERE receiving_transaction_id = $1`, in id order. */
  function ItemsOf(items: seq<Option<ReceivingItem>>, tx: nat): (r: seq<nat>)
    ensures forall k :: 0 <= k < |r| ==> r[k] < |items| && items[r[k]].Some?
  {
    LinesOf(items, tx, |items|)
  }

  /** What approval deposits for a line: its net weight, or its gross weight while null, at its
      effective price, or its unit price while null. */
  function DepositOf(it: ReceivingItem): Deposit
  {
    Deposit(it.material, OrElse(it.net, it.gross), OrElse(it.effective, it.unitPrice))
  }

  function ApprovalDeposits(items: seq<Option<ReceivingItem>>, order: seq<nat>): (r: seq<Deposit>)
    requires forall k :: 0 <= k < |order| ==> order[k] < |items| && items[order[k]].Some?
    ensures |r| == |order|
  {
    if order == [] then []
    else ApprovalDeposits(items, order[..|order| - 1]) + [DepositOf(items[order[|order| - 1]].value)]
  }

  /** Net (or gross) weight of material `m` over the lines of `tx` among the first `n`. */
  function NetOfMaterial(items: seq<Option<ReceivingItem>>, tx: nat, m: nat, n: nat): real
    requires n <= |items|
  {
    if n == 0 then 0.0
    else
      NetOfMaterial(items, tx, m, n - 1)
        + (if InTx(items[n - 1], tx) && items[n - 1].value.material == m then OrElse(items[n - 1].value.net, items[n - 1].value.gross) else 0.0)
  }

  lemma {:induction false} DepositsCarryNet(items: seq<Option<ReceivingItem>>, tx: nat, m: nat, n: nat)
    requires n <= |items|
    ensures DepositedQty(ApprovalDeposits(items, LinesOf(items, tx, n)), m) == NetOfMaterial(items, tx, m, n)
  {
    if n > 0 {
      DepositsCarryNet(items, tx, m, n - 1);
      var s := LinesOf(items, tx, n);
      var front := LinesOf(items, tx, n - 1);
      if InTx(items[n - 1], tx) {
        var it := items[n - 1].value;
        assert s == front + [n - 1];
        assert s[..|s| - 1] == front;
        var ds := ApprovalDeposits(items, s);
        var dsFront := ApprovalDeposits(items, front);
        assert ds == dsFront + [DepositOf(it)];
        assert ds[..|ds| - 1] == dsFront;
        calc {
          DepositedQty(ds, m);
          DepositedQty(dsFront, m) + (if it.material == m then OrElse(it.net, it.gross) else 0.0);
          NetOfMaterial(items, tx, m, n - 1) + (if it.material == m then OrElse(it.net, it.gross) else 0.0);
          NetOfMaterial(items, tx, m, n);
        }
      } else {
        assert s == front;
      }
    }
  }

  /** Approval raises the stock of each material of the tenant by the net weight the purchase's
      lines of that material carry, and leaves the other tenants' stock alone. */
  lemma ApprovalRaisesStock(lots: seq<StockLot>, items: seq<Option<ReceivingItem>>, t: nat, p: nat, tx: nat, now: nat)
    requires UniqueKeys(lots)
    ensures var r := DepositAll(lots, t, p, ApprovalDeposits(items, ItemsOf(items, tx)), now);
      && UniqueKeys(r)
      && (forall m :: Available(r, t, m) == Available(lots, t, m) + NetOfMaterial(items, tx, m, |items|))
      && (forall t', m :: t' != t ==> Available(r, t', m) == Available(lots, t', m))
  {
    var ds := ApprovalDeposits(items, ItemsOf(items, tx));
    DepositAllEffect(lots, t, p, ds, now);
    forall m ensures DepositedQty(ds, m) == NetOfMaterial(items, tx, m, |items|) {
      DepositsCarryNet(items, tx, m, |items|);
    }
  }

  lemma ApproveKeepsConsistent(partners: seq<Partner>, recs: seq<Option<ReceivingTx>>, items: seq<Option<ReceivingItem>>,
                               stock: seq<StockLot>, money: seq<MoneyRow>, id: nat, t: nat,
                               partners': seq<Partner>, recs': seq<Option<ReceivingTx>>, stock': seq<StockLot>,
                               money': seq<MoneyRow>, now: nat)
    requires Consistent(partners, recs, items, stock, money)
    requires InState(recs, id, t, {Inspected}) && UniqueKeys(stock')
    requires var tx := recs[id].value;
      && tx.partner < |partners|
      && partners' == partners[tx.partner := partners[tx.partner].(balance := partners[tx.partner].balance + tx.total)]
      && recs' == recs[id := Some(tx.(status := Approved))]
      && money' == money + [MoneyRow(t, tx.partner, Payment, tx.total, ApprovalPosting, now)]
    ensures Consistent(partners', recs', items, stock', money')
  {
    var tx := recs[id].value;
    var row := MoneyRow(t, tx.partner, Payment, tx.total, ApprovalPosting, now);
    forall q | 0 <= q < |partners'| ensures partners'[q].balance == Net(money', q) {
      NetAppend(money, row, q);
    }
  }

  /** The approval's loop over the purchase's lines: one stock upsert per line, in `order`. */
  method DepositLines(db: Store, t: nat, p: nat, order: seq<nat>, now: nat)
    requires forall k :: 0 <= k < |order| ==> order[k] < |db.receivingItems| && db.receivingItems[order[k]].Some?
    modifies db`stock
    ensures db.stock == DepositAll(old(db.stock), t, p, ApprovalDeposits(db.receivingItems, order), now)
    ensures UniqueKeys(old(db.stock)) ==> UniqueKeys(db.stock)
  {
    ghost var stock0 := db.stock;
    var k := 0;
    while k < |order|
      invariant 0 <= k <= |order|
      invariant db.stock == DepositAll(stock0, t, p, ApprovalDeposits(db.receivingItems, order[..k]), now)
    {
      var it := db.receivingItems[order[k]].value;
      assert order[..k + 1][..k] == order[..k];
      ghost var ds := ApprovalDeposits(db.receivingItems, order[..k + 1]);
      assert ds == ApprovalDeposits(db.receivingItems, order[..k]) + [DepositOf(it)];
      assert ds[..|ds| - 1] == ApprovalDeposits(db.receivingItems, order[..k]);
      db.stock := Upsert(db.stock, t, p, Deposit(it.material, OrElse(it.net, it.gross), OrElse(it.effective, it.unitPrice)), now);
      k := k + 1;
    }
    assert order[..|order|] == order;
    if UniqueKeys(stock0) {
      DepositAllEffect(stock0, t, p, ApprovalDeposits(db.receivingItems, order), now);
    }
  }

  /** The bookkeeping of an approval of purchase `id`: the partner's balance, the payment row and
      the status. */
  method PostApproval(db: Store, t: nat, id: nat, now: nat)
    requires db.Valid() && InState(db.receivings, id, t, {Inspected})
    modifies db`partners, db`money, db`receivings
    ensures db.Valid()
    ensures var tx := old(db.receivings)[id].value;
      var p := tx.partner;
      && p < |old(db.partners)|
      && db.partners == old(db.partners)[p := old(db.partners)[p].(balance := old(db.partners)[p].balance + tx.total)]
      && db.money == old(db.money) + [MoneyRow(t, p, Payment, tx.total, ApprovalPosting, now)]
      && db.receivings == old(db.receivings)[id := Some(tx.(status := Approved))]
  {
    var tx := db.receivings[id].value;
    var p := tx.partner;
    ghost var partners0, recs0, money0 := db.partners, db.receivings, db.money;
    db.partners := db.partners[p := db.partners[p].(balance := db.partners[p].balance + tx.total)];
    db.money := db.money + [MoneyRow(t, p, Payment, tx.total, ApprovalPosting, now)];
    db.receivings := db.receivings[id := Some(tx.(status := Approved))];
    ApproveKeepsConsistent(partners0, recs0, db.receivingItems, db.stock, money0, id, t,
                           db.partners, db.receivings, db.stock, db.money, now);
  }

  /** The writes of an approval of purchase `id`: the stock deposits, then the bookkeeping. */
  method ApplyApproval(db: Store, t: nat, id: nat, now: nat)
    requires db.Valid() && InState(db.receivings, id, t, {Inspected})
    modifies db`stock, db`partners, db`money, db`receivings
    ensures db.Valid()
    ensures var tx := old(db.receivings)[id].value;
      var p := tx.partner;
      && p < |old(db.partners)|
      && db.stock == DepositAll(old(db.stock), t, p, ApprovalDeposits(db.receivingItems, ItemsOf(db.receivingItems, id)), now)
      && db.partners == old(db.partners)[p := old(db.partners)[p].(balance := old(db.partners)[p].balance + tx.total)]
      && db.money == old(db.money) + [MoneyRow(t, p, Payment, tx.total, ApprovalPosting, now)]
      && db.receivings == old(db.receivings)[id := Some(tx.(status := Approved))]
  {
    DepositLines(db, t, db.receivings[id].value.partner, ItemsOf(db.receivingItems, id), now);
    PostApproval(db, t, id, now);
  }

  /** `POST /receiving/:id/approve`: only an inspected purchase of the tenant. Deposit every line
      into the stock of the purchase's partner, raise the partner's balance by the total, post the
      payment row and mark the purchase approved. Otherwise nothing is written. */
  method Approve(db: Store, t: nat, id: nat, now: nat) returns (r: Result<()>)
    requires db.Valid()
    modifies db`stock, db`partners, db`money, db`receivings
    ensures db.Valid()
    ensures r.Ok? <==> InState(old(db.receivings), id, t, {Inspected})
    ensures r.Err? ==> r.error == NotFound && unchanged(db)
    ensures r.Ok? ==>
      var tx := old(db.receivings)[id].value;
      var p := tx.partner;
      && p < |old(db.partners)|
      && db.stock == DepositAll(old(db.stock), t, p, ApprovalDeposits(db.receivingItems, ItemsOf(db.receivingItems, id)), now)
      && db.partners == old(db.partners)[p := old(db.partners)[p].(balance := old(db.partners)[p].balance + tx.total)]
      && db.money == old(db.money) + [MoneyRow(t, p, Payment, tx.total, ApprovalPosting, now)]
      && db.receivings == old(db.receivings)[id := Some(tx.(status := Approved))]
  {
    if !InState(db.receivings, id, t, {Inspected}) {
      return Err(NotFound);
    }
    ApplyApproval(db, t, id, now);
    r := Ok(());
  }

  /** `POST /receiving/:id/reject`: a pending or inspected purchase of the tenant becomes rejected;
      stock, balances and the ledger are not touched. */
  method Reject(db: Store, t: nat, id: nat) returns (r: Result<()>)
    requires db.Valid()
    modifies db`receivings
    ensures db.Valid()
    ensures r.Ok? <==> InState(old(db.receivings), id, t, {Pending, Inspected})
    ensures r.Err? ==> r.error == NotFound && db.receivings == old(db.receivings)
    ensures r.Ok? ==> db.receivings == old(db.receivings)[id := Some(old(db.receivings)[id].value.(status := Rejected))]
  {
    if !InState(db.receivings, id, t, {Pending, Inspected}) {
      return Err(NotFound);
    }
    db.receivings := db.receivings[id := Some(db.receivings[id].value.(status := Rejected))];
    r := Ok(());
  }

  /** The line table with every line of purchase `tx` removed. */
  function DropTx(items: seq<Option<ReceivingItem>>, tx: nat): (r: seq<Option<ReceivingItem>>)
    ensures |r| == |items|
    ensures forall j :: 0 <= j < |items| ==> r[j] == (if InTx(items[j], tx) then None else items[j])
  {
    seq(|items|, j requires 0 <= j < |items| => if InTx(items[j], tx) then None else items[j])
  }

  lemma DeleteKeepsConsistent(partners: seq<Partner>, recs: seq<Option<ReceivingTx>>, items: seq<Option<ReceivingItem>>,
                              stock: seq<StockLot>, money: seq<MoneyRow>, id: nat)
    requires Consistent(partners, recs, items, stock, money) && id < |recs|
    ensures Consistent(partners, recs[id := None], DropTx(items, id), stock, money)
  {
    var items' := DropTx(items, id);
    forall k | k != id
      ensures GrossValue(items', k) == GrossValue(items, k) && Uninspected(items', k) == Uninspected(items, k)
    {
      SumsAgree(items', items, k);
    }
  }

  /** `DELETE /receiving/:id`: only a pending purchase of the tenant; it goes together with its
      lines. */
  method Delete(db: Store, t: nat, id: nat) returns (r: Result<()>)
    requires db.Valid()
    modifies db`receivings, db`receivingItems
    ensures db.Valid()
    ensures r.Ok? <==> InState(old(db.receivings), id, t, {Pending})
    ensures r.Err? ==> (r.error == NotFound
      && db.receivings == old(db.receivings) && db.receivingItems == old(db.receivingItems))
    ensures r.Ok? ==> (db.receivings == old(db.receivings)[id := None]
      && db.receivingItems == DropTx(old(db.receivingItems), id))
  {
    if !InState(db.receivings, id, t, {Pending}) {
      return Err(NotFound);
    }
    DeleteKeepsConsistent(db.partners, db.receivings, db.receivingItems, db.stock, db.money, id);
    db.receivings := db.receivings[id := None];
    db.receivingItems := DropTx(db.receivingItems, id);
    r := Ok(());
  }

  function TxDate(recs: seq<Option<ReceivingTx>>, k: nat): nat
  {
    if k < |recs| && recs[k].Some? then recs[k].value.date else 0
  }

  /** `ORDER BY transaction_date DESC`. */
  function LaterTxFirst(recs: seq<Option<ReceivingTx>>): (nat, nat) -> bool
  {
    (a: nat, b: nat) => TxDate(recs, a) >= TxDate(recs, b)
  }

  /** A listed purchase: the tenant's, joined to its partner, in `status` when one is given. */
  function Listed(recs: seq<Option<ReceivingTx>>, partners: seq<Partner>, t: nat, status: Option<Status>): nat -> bool
  {
    (k: nat) => k < |recs| && recs[k].Some? && recs[k].value.tenant == t && recs[k].value.partner < |partners|
                && (status.Some? ==> recs[k].value.status == status.value)
  }

  /** `GET /receiving` (no status), `/pending` (pending) and `/awaiting-approval` (inspected):
      exactly the tenant's purchases in that status, each once, newest first. */
  function ListReceivings(recs: seq<Option<ReceivingTx>>, partners: seq<Partner>, t: nat, status: Option<Status>): (r: seq<nat>)
    ensures forall k: nat :: k in r <==>
      k < |recs| && recs[k].Some? && recs[k].value.tenant == t && recs[k].value.partner < |partners|
      && (status.Some? ==> recs[k].value.status == status.value)
    ensures Distinct(r)
    ensures forall k :: 0 <= k < |r| ==> r[k] < |recs| && recs[r[k]].Some?
    ensures forall i, j :: 0 <= i < j < |r| ==> recs[r[j]].value.date <= recs[r[i]].value.date
  {
    var r := SelectSorted(|recs|, Listed(recs, partners, t, status), LaterTxFirst(recs));
    assert forall k :: 0 <= k < |r| ==> r[k] in r;
    r
  }
}
