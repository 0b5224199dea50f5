/** The two read-only stock views: the per-material summary of a tenant and the lot breakdown
    of one material. */
module StockRoutes {
  import opened Schema
  import opened Query
  import opened StockLedger

  /** `ORDER BY item_name`, taken as code-point lexicographic order. */
  predicate NameLe(a: string, b: string)
  {
    if a == [] then true
    else if b == [] then false
    else if a[0] != b[0] then a[0] < b[0]
    else NameLe(a[1..], b[1..])
  }

  lemma {:induction false} NameLeTotal(a: string, b: string)
    ensures NameLe(a, b) || NameLe(b, a)
  {
    if a != [] && b != [] && a[0] == b[0] {
      NameLeTotal(a[1..], b[1..]);
    }
  }

  lemma {:induction false} NameLeTransitive(a: string, b: string, c: string)
    requires NameLe(a, b) && NameLe(b, c)
    ensures NameLe(a, c)
  {
    if a != [] && b != [] && c != [] && a[0] == b[0] && b[0] == c[0] {
      NameLeTransitive(a[1..], b[1..], c[1..]);
    }
  }

  /** Two names in order both ways are the same name. */
  lemma {:induction false} NameLeAntisymmetric(a: string, b: string)
    requires NameLe(a, b) && NameLe(b, a)
    ensures a == b
  {
    if a != [] && b != [] {
      NameLeAntisymmetric(a[1..], b[1..]);
      assert a == [a[0]] + a[1..] && b == [b[0]] + b[1..];
    }
  }

  function MaterialName(materials: seq<Material>, k: nat): string
  {
    if k < |materials| then materials[k].name else []
  }

  function ByName(materials: seq<Material>): (nat, nat) -> bool
  {
    (a: nat, b: nat) => NameLe(MaterialName(materials, a), MaterialName(materials, b))
  }

  lemma ByNameOrders(materials: seq<Material>)
    ensures Total(ByName(materials)) && Transitive(ByName(materials))
  {
    var le := ByName(materials);
    forall a, b ensures le(a, b) || le(b, a) {
      NameLeTotal(MaterialName(materials, a), MaterialName(materials, b));
    }
    forall a, b, c | le(a, b) && le(b, c) ensures le(a, c) {
      NameLeTransitive(MaterialName(materials, a), MaterialName(materials, b), MaterialName(materials, c));
    }
  }

  /** One row of the summary: a material of the tenant and the summed quantity of its lots. */
  datatype StockRow = StockRow(material: nat, name: string, total: real)

  /** `WHERE m.tenant_id = $1`. */
  predicate TenantMaterial(materials: seq<Material>, t: nat, k: nat)
  {
    k < |materials| && materials[k].tenant == t
  }

  /** The summary's material ids: the tenant's materials, each once, ordered by name. */
  function SummaryIds(materials: seq<Material>, t: nat): (ids: seq<nat>)
    ensures forall k: nat :: k in ids <==> TenantMaterial(materials, t, k)
    ensures Distinct(ids)
    ensures forall i, j :: 0 <= i < j < |ids| ==> NameLe(MaterialName(materials, ids[i]), MaterialName(materials, ids[j]))
  {
    ByNameOrders(materials);
    SelectSorted(|materials|, (k: nat) => TenantMaterial(materials, t, k), ByName(materials))
  }

  /** `COALESCE(SUM(s.quantity), 0)` next to the material's name. */
  function SummaryRow(materials: seq<Material>, lots: seq<StockLot>, t: nat, k: nat): StockRow
  {
    StockRow(k, MaterialName(materials, k), Available(lots, t, k))
  }

  /** `GET /stock`: one row per material of the tenant, stocked or not. */
  function StockSummary(materials: seq<Material>, lots: seq<StockLot>, t: nat): seq<StockRow>
  {
    var ids := SummaryIds(materials, t);
    seq(|ids|, i requires 0 <= i < |ids| => SummaryRow(materials, lots, t, ids[i]))
  }

  /** The summary lists every material of the tenant exactly once, stocked or not, with its
      name and the sum of the tenant's lots of it (zero when there are none), ordered by name. */
  lemma StockSummarySpec(materials: seq<Material>, lots: seq<StockLot>, t: nat)
    ensures var r := StockSummary(materials, lots, t);
      && (forall k: nat :: (exists i :: 0 <= i < |r| && r[i].material == k) <==> TenantMaterial(materials, t, k))
      && (forall i, j :: 0 <= i < j < |r| ==> r[i].material != r[j].material)
      && (forall i :: 0 <= i < |r| ==>
            && r[i].material < |materials|
            && materials[r[i].material].tenant == t
            && r[i].name == materials[r[i].material].name
            && r[i].total == Available(lots, t, r[i].material))
      && (forall i, j :: 0 <= i < j < |r| ==> NameLe(r[i].name, r[j].name))
  {
    var ids := SummaryIds(materials, t);
    var r := StockSummary(materials, lots, t);
    assert |r| == |ids|;
    forall i | 0 <= i < |r| ensures r[i].material == ids[i] && TenantMaterial(materials, t, ids[i]) {
      assert ids[i] in ids;
    }
    forall k: nat | k in ids ensures exists i :: 0 <= i < |r| && r[i].material == k {
      var i :| 0 <= i < |ids| && ids[i] == k;
      assert r[i].material == k;
    }
  }

  /** `GET /stock/material/:materialId`: the tenant's lots of the material holding a positive
      quantity, each once, oldest `last_updated` first. */
  function StockDetail(lots: seq<StockLot>, t: nat, m: nat): (r: seq<nat>)
    ensures forall x: nat :: x in r <==> x < |lots| && IsCandidate(lots[x], t, m)
    ensures Distinct(r)
    ensures forall i, j :: 0 <= i < j < |r| ==> r[i] < |lots| && r[j] < |lots| && lots[r[i]].lastUpdated <= lots[r[j]].lastUpdated
  {
    FifoOrderSpec(lots, t, m);
    FifoOrder(lots, t, m)
  }

  /** The detail lists the lots in the order a sale line of the material drains them. */
  lemma DetailIsSaleOrder(lots: seq<StockLot>, t: nat, m: nat, qty: real, now: nat)
    ensures var d := StockDetail(lots, t, m);
            var after := DepleteLine(lots, t, m, qty, now);
      forall a, b :: 0 <= a < b < |d| && after[d[b]] != lots[d[b]] ==> after[d[a]].quantity == 0.0
  {
    DepleteLineFifo(lots, t, m, qty, now);
  }

  lemma {:induction false} CandidatesArePositive(lots: seq<StockLot>, t: nat, m: nat, n: nat)
    requires n <= |lots|
    ensures CandidateQty(lots, lots, t, m, n) == PositiveStockOf(lots, t, m, n)
  {
    if n > 0 {
      CandidatesArePositive(lots, t, m, n - 1);
    }
  }

  /** The detail's quantities add up to the material's positive stock, which bounds the
      summary total from above and equals it when no lot of the material is below zero. */
  lemma DetailCoversSummary(lots: seq<StockLot>, t: nat, m: nat)
    ensures Available(lots, t, m) <= QtyAlong(lots, StockDetail(lots, t, m))
    ensures (forall j :: 0 <= j < |lots| && OfMaterial(lots[j], t, m) ==> lots[j].quantity >= 0.0) ==>
              Available(lots, t, m) == QtyAlong(lots, StockDetail(lots, t, m))
  {
    var c := CandidatesUpTo(lots, t, m, |lots|);
    QtyAlongSort(lots, c, ByStamp(lots));
    QtyAlongCandidates(lots, lots, t, m, |lots|);
    CandidatesArePositive(lots, t, m, |lots|);
    AvailableWithinPositive(lots, t, m, |lots|);
    if forall j :: 0 <= j < |lots| && OfMaterial(lots[j], t, m) ==> lots[j].quantity >= 0.0 {
      NonNegativeStock(lots, t, m, |lots|);
    }
  }

  lemma {:induction false} NonNegativeStock(lots: seq<StockLot>, t: nat, m: nat, n: nat)
    requires n <= |lots|
    requires forall j :: 0 <= j < |lots| && OfMaterial(lots[j], t, m) ==> lots[j].quantity >= 0.0
    ensures StockOf(lots, t, m, n) == PositiveStockOf(lots, t, m, n)
  {
    if n > 0 {
      NonNegativeStock(lots, t, m, n - 1);
    }
  }
}
