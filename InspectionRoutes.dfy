/** The inspection workflow: record a sample-based loss measurement of one purchased line, derive
    the line's net weight and effective price, and settle the purchase once every line has been
    inspected; and the inspection history. */
module InspectionRoutes {
  import opened Common
  import opened Schema
  import opened Query
  import opened Valuation
  import opened StockLedger
  import opened MoneyLedger
  import opened Database
  import ReceivingRoutes

  /** The server's accumulation of the measured loss weights. */
  method UllageTotal(lines: seq<UllageLine>) returns (total: real)
    ensures total == UllageSum(lines)
  {
    total := 0.0;
    var i := 0;
    while i < |lines|
      invariant 0 <= i <= |lines|
      invariant total == UllageSum(lines[..i])
    {
      assert lines[..i + 1][..i] == lines[..i];
      total := total + lines[i].weight;
      i := i + 1;
    }
    assert lines[..|lines|] == lines;
  }

  /** The loss lines an inspection stores, one per request line and in request order. */
  function InspectionLines(id: nat, lines: seq<UllageLine>): (r: seq<InspectionItem>)
    ensures |r| == |lines|
  {
    if lines == [] then []
    else
      var last := lines[|lines| - 1];
      InspectionLines(id, lines[..|lines| - 1]) + [InspectionItem(id, last.ullageType, last.weight)]
  }

  lemma LossOfAppend(rows: seq<InspectionItem>, row: InspectionItem, k: nat)
    ensures LossOf(rows + [row], k) == LossOf(rows, k) + (if row.inspection == k then row.weight else 0.0)
  {
    assert (rows + [row])[..|rows|] == rows;
  }

  /** The stored loss lines of inspection `id` add up to the measured loss; other inspections'
      sums do not move. */
  lemma {:induction false} LossOfNewLines(rows: seq<InspectionItem>, id: nat, lines: seq<UllageLine>, k: nat)
    ensures LossOf(rows + InspectionLines(id, lines), k) == LossOf(rows, k) + (if k == id then UllageSum(lines) else 0.0)
  {
    if lines == [] {
      assert rows + InspectionLines(id, lines) == rows;
    } else {
      var front := lines[..|lines| - 1];
      var last := lines[|lines| - 1];
      LossOfNewLines(rows, id, front, k);
      var row := InspectionItem(id, last.ullageType, last.weight);
      assert rows + InspectionLines(id, lines) == (rows + InspectionLines(id, front)) + [row];
      LossOfAppend(rows + InspectionLines(id, front), row, k);
    }
  }

  /** No loss line refers to an inspection id not yet issued. */
  lemma {:induction false} LossOfFresh(rows: seq<InspectionItem>, k: nat)
    requires forall j :: 0 <= j < |rows| ==> rows[j].inspection < k
    ensures LossOf(rows, k) == 0.0
  {
    if rows != [] {
      LossOfFresh(rows[..|rows| - 1], k);
    }
  }

  /** Recording an inspection whose total is the sum of its lines keeps every inspection's total
      equal to the sum of its stored lines. */
  lemma RecordKeepsRecorded(inspections: seq<Inspection>, rows: seq<InspectionItem>, insp: Inspection, lines: seq<UllageLine>)
    requires InspectionsRecorded(inspections, rows)
    requires Measured(insp) && insp.totalUllage == UllageSum(lines)
    ensures InspectionsRecorded(inspections + [insp], rows + InspectionLines(|inspections|, lines))
  {
    var id := |inspections|;
    var ins' := inspections + [insp];
    var rows' := rows + InspectionLines(id, lines);
    RecordedLosses(inspections, rows, insp, lines);
    RecordedOwners(inspections, rows, lines);
    forall k | 0 <= k < |ins'|
      ensures Measured(ins'[k]) && ins'[k].totalUllage == LossOf(rows', k)
    {
      if k < id {
        assert ins'[k] == inspections[k];
      } else {
        assert ins'[k] == insp;
      }
    }
  }

  lemma RecordedLosses(inspections: seq<Inspection>, rows: seq<InspectionItem>, insp: Inspection, lines: seq<UllageLine>)
    requires InspectionsRecorded(inspections, rows)
    requires insp.totalUllage == UllageSum(lines)
    ensures var rows' := rows + InspectionLines(|inspections|, lines);
      && insp.totalUllage == LossOf(rows', |inspections|)
      && forall k :: 0 <= k < |inspections| ==> inspections[k].totalUllage == LossOf(rows', k)
  {
    var id := |inspections|;
    LossOfFresh(rows, id);
    LossOfNewLines(rows, id, lines, id);
    forall k | 0 <= k < id ensures inspections[k].totalUllage == LossOf(rows + InspectionLines(id, lines), k) {
      LossOfNewLines(rows, id, lines, k);
    }
  }

  lemma RecordedOwners(inspections: seq<Inspection>, rows: seq<InspectionItem>, lines: seq<UllageLine>)
    requires forall j :: 0 <= j < |rows| ==> rows[j].inspection < |inspections|
    ensures var rows' := rows + InspectionLines(|inspections|, lines);
      forall j :: 0 <= j < |rows'| ==> rows'[j].inspection <= |inspections|
  {
    var added := InspectionLines(|inspections|, lines);
    InspectionLinesOwner(|inspections|, lines);
    forall j | 0 <= j < |rows + added| ensures (rows + added)[j].inspection <= |inspections| {
      if j >= |rows| {
        assert (rows + added)[j] == added[j - |rows|];
      }
    }
  }

  lemma {:induction false} InspectionLinesOwner(id: nat, lines: seq<UllageLine>)
    ensures forall j :: 0 <= j < |lines| ==> InspectionLines(id, lines)[j].inspection == id
  {
    if lines != [] {
      InspectionLinesOwner(id, lines[..|lines| - 1]);
    }
  }

  /** The inspection's insert and its loop over the loss lines. */
  method RecordInspection(db: Store, t: nat, itemId: nat, sample: real, total: real, pct: real,
                          lines: seq<UllageLine>, now: nat) returns (id: nat)
    requires db.Valid()
    requires sample != 0.0 && pct * sample == total * 100.0 && total == UllageSum(lines)
    modifies db`inspections, db`inspectionItems
    ensures db.Valid()
    ensures id == |old(db.inspections)|
    ensures db.inspections == old(db.inspections) + [Inspection(t, itemId, sample, total, pct, now)]
    ensures db.inspectionItems == old(db.inspectionItems) + InspectionLines(id, lines)
  {
    id := |db.inspections|;
    var insp := Inspection(t, itemId, sample, total, pct, now);
    assert Measured(insp);
    RecordKeepsRecorded(db.inspections, db.inspectionItems, insp, lines);
    db.inspections := db.inspections + [insp];
    ghost var rows0 := db.inspectionItems;
    var i := 0;
    while i < |lines|
      invariant 0 <= i <= |lines|
      invariant db.inspectionItems == rows0 + InspectionLines(id, lines[..i])
      modifies db`inspectionItems
    {
      assert lines[..i + 1][..i] == lines[..i];
      db.inspectionItems := db.inspectionItems + [InspectionItem(id, lines[i].ullageType, lines[i].weight)];
      i := i + 1;
    }
    assert lines[..|lines|] == lines;
  }

  /** The purchased line `itemId` exists and its purchase belongs to tenant `t` (the lookup join). */
  predicate ItemOfTenant(recs: seq<Option<ReceivingTx>>, items: seq<Option<ReceivingItem>>, itemId: nat, t: nat)
  {
    itemId < |items| && items[itemId].Some?
    && items[itemId].value.tx < |recs| && recs[items[itemId].value.tx].Some?
    && recs[items[itemId].value.tx].value.tenant == t
  }

  /** The line after inspection: its net weight and the effective price at that weight. */
  function PricedItem(it: ReceivingItem, net: real): (r: ReceivingItem)
    requires net != 0.0
    ensures ItemPriced(r)
    ensures r.tx == it.tx && r.material == it.material && r.gross == it.gross && r.unitPrice == it.unitPrice
  {
    it.(net := Some(net), effective := Some(EffectivePrice(it.gross, it.unitPrice, net)))
  }

  /** Completion: once no line of purchase `tx` lacks a net weight, the purchase becomes inspected
      at its logistics cost plus the sum of net weight times effective price; whatever its status
      was, since the update has no status condition. */
  function Settle(recs: seq<Option<ReceivingTx>>, items: seq<Option<ReceivingItem>>, tx: nat): (r: seq<Option<ReceivingTx>>)
    requires tx < |recs| && recs[tx].Some?
    ensures |r| == |recs|
  {
    if Uninspected(items, tx) == 0
    then recs[tx := Some(recs[tx].value.(status := Inspected, total := PricedValue(items, tx) + recs[tx].value.logistics))]
    else recs
  }

  /** Pricing one line keeps every purchase's gross value and never adds an uninspected line. */
  lemma PricingSums(items: seq<Option<ReceivingItem>>, itemId: nat, net: real)
    requires itemId < |items| && items[itemId].Some? && net != 0.0
    ensures var items' := items[itemId := Some(PricedItem(items[itemId].value, net))];
      forall k :: GrossValue(items', k) == GrossValue(items, k) && Uninspected(items', k) <= Uninspected(items, k)
  {
    var v := Some(PricedItem(items[itemId].value, net));
    forall k ensures GrossValue(items[itemId := v], k) == GrossValue(items, k)
      && Uninspected(items[itemId := v], k) <= Uninspected(items, k)
    {
      SumsUpdate(items, itemId, v, k);
    }
  }

  /** Pricing a line of the tenant and settling its purchase keeps the store consistent. The
      recomputed total equals the provisional one, because the effective price spreads only the
      line's own purchase value. A purchase left with an uninspected line keeps its status, which
      is then pending or rejected. */
  lemma InspectionSettles(partners: seq<Partner>, recs: seq<Option<ReceivingTx>>, items: seq<Option<ReceivingItem>>,
                          stock: seq<StockLot>, money: seq<MoneyRow>, itemId: nat, t: nat, net: real)
    requires Consistent(partners, recs, items, stock, money)
    requires ItemOfTenant(recs, items, itemId, t) && net != 0.0
    ensures var tx := items[itemId].value.tx;
      var items' := items[itemId := Some(PricedItem(items[itemId].value, net))];
      var recs' := Settle(recs, items', tx);
      && Consistent(partners, recs', items', stock, money)
      && recs'[tx].Some? && recs'[tx].value.total == recs[tx].value.total
      && (Uninspected(items', tx) == 0 ==> recs'[tx].value.status == Inspected)
      && (Uninspected(items', tx) != 0 ==> recs'[tx] == recs[tx] && recs[tx].value.status in {Pending, Rejected})
  {
    var tx := items[itemId].value.tx;
    var items' := items[itemId := Some(PricedItem(items[itemId].value, net))];
    var recs' := Settle(recs, items', tx);
    PricingSums(items, itemId, net);
    assert Uninspected(items', tx) <= Uninspected(items, tx);
    if Uninspected(items', tx) != 0 {
      assert recs[tx].value.status !in {Inspected, Approved};
      assert recs[tx].value.status.Pending? || recs[tx].value.status.Rejected?;
    }
    assert AllPriced(items');
    if Uninspected(items', tx) == 0 {
      PricedEqualsGross(items', tx);
    }
    assert TotalsMatchItems(recs', items') by {
      forall k | 0 <= k < |recs'| && recs'[k].Some?
        ensures recs'[k].value.total == recs'[k].value.logistics + GrossValue(items', k)
      {
        if k != tx {
          assert recs'[k] == recs[k];
        }
      }
    }
    assert CompletedInspected(recs', items') by {
      forall k | 0 <= k < |recs'| && recs'[k].Some? && recs'[k].value.status in {Inspected, Approved}
        ensures Uninspected(items', k) == 0
      {
        if k != tx || Uninspected(items', tx) != 0 {
          assert recs'[k] == recs[k];
        }
      }
    }
    assert ItemsOwned(recs', items') by {
      forall j | 0 <= j < |items'| && items'[j].Some?
        ensures items'[j].value.tx < |recs'| && recs'[items'[j].value.tx].Some?
      {
        if j != itemId {
          assert items'[j] == items[j];
        }
      }
    }
  }

  /** Re-inspecting a line of an approved purchase sends the purchase back to inspected, from
      where it can be approved, and its lines deposited into stock, a second time. */
  lemma ApprovedReturnsToInspected(partners: seq<Partner>, recs: seq<Option<ReceivingTx>>, items: seq<Option<ReceivingItem>>,
                                   stock: seq<StockLot>, money: seq<MoneyRow>, itemId: nat, t: nat, net: real)
    requires Consistent(partners, recs, items, stock, money)
    requires ItemOfTenant(recs, items, itemId, t) && net != 0.0
    requires recs[items[itemId].value.tx].value.status == Approved
    ensures var tx := items[itemId].value.tx;
      var items' := items[itemId := Some(PricedItem(items[itemId].value, net))];
      Settle(recs, items', tx)[tx].value.status == Inspected
  {
    PricingSums(items, itemId, net);
  }

  /** Inspecting the last open line of a rejected purchase revives it: the purchase becomes
      inspected again, which is the state approval accepts. */
  lemma RejectedReturnsToInspected(partners: seq<Partner>, recs: seq<Option<ReceivingTx>>, items: seq<Option<ReceivingItem>>,
                                   stock: seq<StockLot>, money: seq<MoneyRow>, itemId: nat, t: nat, net: real)
    requires Consistent(partners, recs, items, stock, money)
    requires ItemOfTenant(recs, items, itemId, t) && net != 0.0
    requires recs[items[itemId].value.tx].value.status == Rejected
    requires Uninspected(items[itemId := Some(PricedItem(items[itemId].value, net))], items[itemId].value.tx) == 0
    ensures var tx := items[itemId].value.tx;
      var items' := items[itemId := Some(PricedItem(items[itemId].value, net))];
      ReceivingRoutes.InState(Settle(recs, items', tx), tx, t, {Inspected})
  {
  }

  /** The line update and the completion check of an inspection. */
  method PriceItem(db: Store, t: nat, itemId: nat, net: real)
    requires db.Valid() && ItemOfTenant(db.receivings, db.receivingItems, itemId, t) && net != 0.0
    modifies db`receivingItems, db`receivings
    ensures db.Valid()
    ensures db.receivingItems == old(db.receivingItems)[itemId := Some(PricedItem(old(db.receivingItems)[itemId].value, net))]
    ensures db.receivings == Settle(old(db.receivings), db.receivingItems, old(db.receivingItems)[itemId].value.tx)
  {
    var it := db.receivingItems[itemId].value;
    InspectionSettles(db.partners, db.receivings, db.receivingItems, db.stock, db.money, itemId, t, net);
    var eff := EffectivePrice(it.gross, it.unitPrice, net);
    db.receivingItems := db.receivingItems[itemId := Some(it.(net := Some(net), effective := Some(eff)))];
    if Uninspected(db.receivingItems, it.tx) == 0 {
      var tx := db.receivings[it.tx].value;
      var newTotal := PricedValue(db.receivingItems, it.tx) + tx.logistics;
      db.receivings := db.receivings[it.tx := Some(tx.(status := Inspected, total := newTotal))];
    }
  }

  /** The net weight the handler derives from the request. */
  function InspectedNet(gross: real, lines: seq<UllageLine>, sample: real): real
    requires sample != 0.0
  {
    NetWeight(gross, UllagePercentage(UllageSum(lines), sample))
  }

  /** `POST /inspections`: look the line up among the tenant's purchases, compute the loss, its
      percentage of the sample and the net weight, store the inspection and its loss lines, price
      the line, and settle the purchase when it was its last uninspected line. A zero sample or a
      zero net weight makes the division fail and nothing is written. */
  method CreateInspection(db: Store, t: nat, itemId: nat, sample: real, lines: seq<UllageLine>, now: nat)
    returns (r: Result<nat>)
    requires db.Valid()
    modifies db`inspections, db`inspectionItems, db`receivingItems, db`receivings
    ensures db.Valid()
    ensures r.Ok? <==> (ItemOfTenant(old(db.receivings), old(db.receivingItems), itemId, t) && sample != 0.0
                        && InspectedNet(old(db.receivingItems)[itemId].value.gross, lines, sample) != 0.0)
    ensures r.Err? ==> (r.error == (if ItemOfTenant(old(db.receivings), old(db.receivingItems), itemId, t) then InvalidCalculation else NotFound)
      && db.inspections == old(db.inspections) && db.inspectionItems == old(db.inspectionItems)
      && db.receivingItems == old(db.receivingItems) && db.receivings == old(db.receivings))
    ensures r.Ok? ==>
      var it := old(db.receivingItems)[itemId].value;
      var loss := UllageSum(lines);
      var pct := UllagePercentage(loss, sample);
      && r.value == |old(db.inspections)|
      && db.inspections == old(db.inspections) + [Inspection(t, itemId, sample, loss, pct, now)]
      && db.inspectionItems == old(db.inspectionItems) + InspectionLines(r.value, lines)
      && db.receivingItems == old(db.receivingItems)[itemId := Some(PricedItem(it, NetWeight(it.gross, pct)))]
      && db.receivings == Settle(old(db.receivings), db.receivingItems, it.tx)
  {
    if !ItemOfTenant(db.receivings, db.receivingItems, itemId, t) {
      return Err(NotFound);
    }
    var it := db.receivingItems[itemId].value;
    var loss := UllageTotal(lines);
    if sample == 0.0 {
      return Err(InvalidCalculation);
    }
    var pct := UllagePercentage(loss, sample);
    var net := NetWeight(it.gross, pct);
    if net == 0.0 {
      return Err(InvalidCalculation);
    }
    var id := RecordInspection(db, t, itemId, sample, loss, pct, lines, now);
    PriceItem(db, t, itemId, net);
    r := Ok(id);
  }

  function InspectionDate(inspections: seq<Inspection>, k: nat): nat
  {
    if k < |inspections| then inspections[k].date else 0
  }

  /** `ORDER BY inspection_date DESC`. */
  function LaterInspectionFirst(inspections: seq<Inspection>): (nat, nat) -> bool
  {
    (a: nat, b: nat) => InspectionDate(inspections, a) >= InspectionDate(inspections, b)
  }

  /** An inspection the history lists: the tenant's, and joined to its line, the line's material,
      its purchase and the purchase's partner. */
  predicate InHistory(inspections: seq<Inspection>, items: seq<Option<ReceivingItem>>, recs: seq<Option<ReceivingTx>>,
                      partners: seq<Partner>, materials: seq<Material>, t: nat, k: nat)
  {
    k < |inspections| && inspections[k].tenant == t
    && var i := inspections[k].item;
    i < |items| && items[i].Some? && items[i].value.material < |materials|
    && items[i].value.tx < |recs| && recs[items[i].value.tx].Some?
    && recs[items[i].value.tx].value.partner < |partners|
  }

  /** `GET /inspections/history`: exactly the tenant's inspections whose joins resolve, each once,
      newest first. */
  function InspectionHistory(inspections: seq<Inspection>, items: seq<Option<ReceivingItem>>, recs: seq<Option<ReceivingTx>>,
                             partners: seq<Partner>, materials: seq<Material>, t: nat): (r: seq<nat>)
    ensures forall k: nat :: k in r <==> InHistory(inspections, items, recs, partners, materials, t, k)
    ensures Distinct(r)
    ensures forall i, j :: 0 <= i < j < |r| ==>
      r[i] < |inspections| && r[j] < |inspections| && inspections[r[j]].date <= inspections[r[i]].date
  {
    var r := SelectSorted(|inspections|, (k: nat) => InHistory(inspections, items, recs, partners, materials, t, k),
                          LaterInspectionFirst(inspections));
    assert forall k :: 0 <= k < |r| ==> r[k] in r;
    r
  }
}
