/** The stock table: lots keyed by (tenant, material, partner). Approval deposits into a lot
    with an upsert; a sale line depletes the positive lots of one material oldest first. */
module StockLedger {
  import opened Common
  import opened Schema
  import opened Query

  predicate OfMaterial(l: StockLot, t: nat, m: nat)
  {
    l.tenant == t && l.material == m
  }

  /** A lot the depletion query selects: right tenant and material, quantity above zero. */
  predicate IsCandidate(l: StockLot, t: nat, m: nat)
  {
    OfMaterial(l, t, m) && l.quantity > 0.0
  }

  function Key(l: StockLot): (nat, nat, nat)
  {
    (l.tenant, l.material, l.partner)
  }

  /** The uniqueness constraint on (tenant, material, partner). */
  predicate UniqueKeys(lots: seq<StockLot>)
  {
    forall i, j :: 0 <= i < j < |lots| ==> Key(lots[i]) != Key(lots[j])
  }

  function Share(l: StockLot, t: nat, m: nat): real
  {
    if OfMaterial(l, t, m) then l.quantity else 0.0
  }

  /** SUM(quantity) over the first `n` lots of tenant `t` and material `m`. */
  function StockOf(lots: seq<StockLot>, t: nat, m: nat, n: nat): real
    requires n <= |lots|
  {
    if n == 0 then 0.0 else StockOf(lots, t, m, n - 1) + Share(lots[n - 1], t, m)
  }

  /** COALESCE(SUM(quantity), 0) for one tenant and material: what the sale pre-check and the
      stock summary read. */
  function Available(lots: seq<StockLot>, t: nat, m: nat): real
  {
    StockOf(lots, t, m, |lots|)
  }

  /** The sum over the lots with a positive quantity only. */
  function PositiveStockOf(lots: seq<StockLot>, t: nat, m: nat, n: nat): real
    requires n <= |lots|
  {
    if n == 0 then 0.0
    else PositiveStockOf(lots, t, m, n - 1) + (if IsCandidate(lots[n - 1], t, m) then lots[n - 1].quantity else 0.0)
  }

  function PositiveStock(lots: seq<StockLot>, t: nat, m: nat): real
  {
    PositiveStockOf(lots, t, m, |lots|)
  }

  /** Lots with a quantity at or below zero only lower the plain sum: it never exceeds the
      positive sum, which is never negative. */
  lemma {:induction false} AvailableWithinPositive(lots: seq<StockLot>, t: nat, m: nat, n: nat)
    requires n <= |lots|
    ensures StockOf(lots, t, m, n) <= PositiveStockOf(lots, t, m, n)
    ensures 0.0 <= PositiveStockOf(lots, t, m, n)
  {
    if n > 0 {
      AvailableWithinPositive(lots, t, m, n - 1);
    }
  }

  /** Ids of the lots below `n` that the depletion query selects, ascending. */
  function CandidatesUpTo(lots: seq<StockLot>, t: nat, m: nat, n: nat): (r: seq<nat>)
    requires n <= |lots|
  {
    if n == 0 then []
    else CandidatesUpTo(lots, t, m, n - 1) + (if IsCandidate(lots[n - 1], t, m) then [n - 1] else [])
  }

  /** The selected ids are exactly the candidates below `n`, each once. */
  lemma {:induction false} CandidatesSpec(lots: seq<StockLot>, t: nat, m: nat, n: nat)
    requires n <= |lots|
    ensures var r := CandidatesUpTo(lots, t, m, n);
      && (forall x: nat :: x in r <==> x < n && IsCandidate(lots[x], t, m))
      && Distinct(r)
      && Indices(r, n)
  {
    if n > 0 {
      CandidatesSpec(lots, t, m, n - 1);
      var front := CandidatesUpTo(lots, t, m, n - 1);
      var r := CandidatesUpTo(lots, t, m, n);
      forall x: nat ensures x in r <==> x < n && IsCandidate(lots[x], t, m) {
        if x in front {
          assert x < n - 1;
        }
      }
    }
  }

  function Stamp(lots: seq<StockLot>, i: nat): nat
  {
    if i < |lots| then lots[i].lastUpdated else 0
  }

  function ByStamp(lots: seq<StockLot>): (nat, nat) -> bool
  {
    (i: nat, j: nat) => Stamp(lots, i) <= Stamp(lots, j)
  }

  /** Every element of `order` is a lot id. */
  predicate Indices(order: seq<nat>, n: nat)
  {
    forall k :: 0 <= k < |order| ==> order[k] < n
  }

  /** The lots a sale line walks: `quantity > 0` lots of the tenant and material,
      `ORDER BY last_updated ASC`. */
  function FifoOrder(lots: seq<StockLot>, t: nat, m: nat): (r: seq<nat>)
    ensures Indices(r, |lots|)
  {
    var c := CandidatesUpTo(lots, t, m, |lots|);
    CandidatesSpec(lots, t, m, |lots|);
    var r := Sort<nat>(c, ByStamp(lots));
    forall k | 0 <= k < |r| ensures r[k] < |lots| {
      assert r[k] in multiset(c);
      var j :| 0 <= j < |c| && c[j] == r[k];
    }
    r
  }

  /** The walk visits exactly the selected lots, each once, oldest first. */
  lemma FifoOrderSpec(lots: seq<StockLot>, t: nat, m: nat)
    ensures var r := FifoOrder(lots, t, m);
      && (forall x: nat :: x in r <==> x < |lots| && IsCandidate(lots[x], t, m))
      && Distinct(r)
      && (forall k :: 0 <= k < |r| ==> lots[r[k]].quantity > 0.0)
      && (forall i, j :: 0 <= i < j < |r| ==> lots[r[i]].lastUpdated <= lots[r[j]].lastUpdated)
  {
    FifoOrderMembers(lots, t, m);
    FifoOrderOldestFirst(lots, t, m);
  }

  lemma FifoOrderMembers(lots: seq<StockLot>, t: nat, m: nat)
    ensures var r := FifoOrder(lots, t, m);
      && (forall x: nat :: x in r <==> x < |lots| && IsCandidate(lots[x], t, m))
      && Distinct(r)
      && (forall k :: 0 <= k < |r| ==> lots[r[k]].quantity > 0.0)
  {
    var c := CandidatesUpTo(lots, t, m, |lots|);
    CandidatesSpec(lots, t, m, |lots|);
    var r := Sort<nat>(c, ByStamp(lots));
    assert r == FifoOrder(lots, t, m);
    forall x ensures x in r <==> x in c {
      assert x in r <==> x in multiset(r);
    }
    forall k | 0 <= k < |r| ensures lots[r[k]].quantity > 0.0 {
      assert r[k] in c;
    }
  }

  lemma FifoOrderOldestFirst(lots: seq<StockLot>, t: nat, m: nat)
    ensures var r := FifoOrder(lots, t, m);
      forall i, j :: 0 <= i < j < |r| ==> lots[r[i]].lastUpdated <= lots[r[j]].lastUpdated
  {
    var le := ByStamp(lots);
    var c := CandidatesUpTo(lots, t, m, |lots|);
    var r := Sort<nat>(c, le);
    assert r == FifoOrder(lots, t, m);
    SortedPairwise(r, le);
    forall i, j | 0 <= i < j < |r| ensures lots[r[i]].lastUpdated <= lots[r[j]].lastUpdated {
      assert le(r[i], r[j]);
    }
  }

  /** Sum of the quantities of the lots listed in `order`. */
  function QtyAlong(lots: seq<StockLot>, order: seq<nat>): real
  {
    if order == [] then 0.0 else QtyAt(lots, order[0]) + QtyAlong(lots, order[1..])
  }

  /** The quantity of lot `i` (zero past the end of the table). */
  function QtyAt(lots: seq<StockLot>, i: nat): real
  {
    if i < |lots| then lots[i].quantity else 0.0
  }

  /** One step of the walk: take `min(remaining, quantity)` from lot `i`. */
  function TakeFrom(lots: seq<StockLot>, i: nat, remaining: real, now: nat): (r: seq<StockLot>)
    requires i < |lots|
    ensures |r| == |lots|
  {
    lots[i := lots[i].(quantity := lots[i].quantity - Min(remaining, lots[i].quantity), lastUpdated := now)]
  }

  /** The depletion loop over `order`: stop once nothing remains, otherwise take
      `min(remaining, quantity)` from the lot and refresh its timestamp. */
  function DepleteAlong(lots: seq<StockLot>, order: seq<nat>, remaining: real, now: nat): (r: seq<StockLot>)
    requires Indices(order, |lots|)
    ensures |r| == |lots|
    decreases |order|
  {
    if order == [] || remaining <= 0.0 then lots
    else
      DepleteAlong(TakeFrom(lots, order[0], remaining, now), order[1..],
                   remaining - Min(remaining, lots[order[0]].quantity), now)
  }

  /** One sale line's stock deduction from material `m` of tenant `t`. */
  function DepleteLine(lots: seq<StockLot>, t: nat, m: nat, qty: real, now: nat): (r: seq<StockLot>)
    ensures |r| == |lots|
  {
    DepleteAlong(lots, FifoOrder(lots, t, m), qty, now)
  }

  /** `after` is `before` with a smaller, non-negative quantity and a refreshed timestamp. */
  predicate Touched(before: StockLot, after: StockLot, now: nat)
  {
    after == before.(quantity := after.quantity, lastUpdated := now)
    && 0.0 <= after.quantity < before.quantity
  }

  lemma {:induction false} QtyAlongAppend(lots: seq<StockLot>, order: seq<nat>, j: nat)
    ensures QtyAlong(lots, order + [j]) == QtyAlong(lots, order) + QtyAt(lots, j)
    decreases |order|
  {
    if order != [] {
      assert (order + [j])[1..] == order[1..] + [j];
      QtyAlongAppend(lots, order[1..], j);
    }
  }

  lemma {:induction false} QtyAlongInsert(lots: seq<StockLot>, x: nat, order: seq<nat>, le: (nat, nat) -> bool)
    ensures QtyAlong(lots, Insert(x, order, le)) == QtyAt(lots, x) + QtyAlong(lots, order)
  {
    if order != [] && !le(x, order[0]) {
      QtyAlongInsert(lots, x, order[1..], le);
      assert Insert(x, order, le)[1..] == Insert(x, order[1..], le);
    }
  }

  /** Sorting the lots to visit does not change their total. */
  lemma {:induction false} QtyAlongSort(lots: seq<StockLot>, order: seq<nat>, le: (nat, nat) -> bool)
    requires Total(le)
    ensures QtyAlong(lots, Sort(order, le)) == QtyAlong(lots, order)
  {
    if order != [] {
      QtyAlongSort(lots, order[1..], le);
      QtyAlongInsert(lots, order[0], Sort(order[1..], le), le);
    }
  }

  lemma {:induction false} QtyAlongUpdate(lots: seq<StockLot>, order: seq<nat>, i: nat, v: StockLot)
    requires i < |lots| && i !in order
    ensures QtyAlong(lots[i := v], order) == QtyAlong(lots, order)
    decreases |order|
  {
    if order != [] {
      QtyAlongUpdate(lots, order[1..], i, v);
    }
  }

  /** The walk unfolded once, with its tail still positive and without the visited lot. */
  lemma WalkStep(lots: seq<StockLot>, order: seq<nat>, remaining: real, now: nat)
    requires Indices(order, |lots|) && Distinct(order) && order != [] && remaining > 0.0
    requires forall k :: 0 <= k < |order| ==> lots[order[k]].quantity > 0.0
    ensures var i := order[0];
      var rest := order[1..];
      var lots1 := TakeFrom(lots, i, remaining, now);
      && Indices(rest, |lots1|) && Distinct(rest) && i !in rest
      && (forall k :: 0 <= k < |rest| ==> lots1[rest[k]] == lots[rest[k]])
      && (forall k :: 0 <= k < |rest| ==> lots1[rest[k]].quantity > 0.0)
      && DepleteAlong(lots, order, remaining, now)
         == DepleteAlong(lots1, rest, remaining - Min(remaining, lots[i].quantity), now)
  {
    var i := order[0];
    var rest := order[1..];
    assert order == [i] + rest;
    forall k | 0 <= k < |rest| ensures rest[k] != i {
      assert rest[k] == order[k + 1];
    }
  }

  /** A lot not on the walk is left as it was. */
  lemma {:induction false} DepleteAlongOffWalk(lots: seq<StockLot>, order: seq<nat>, remaining: real, now: nat)
    requires Indices(order, |lots|) && Distinct(order)
    requires forall k :: 0 <= k < |order| ==> lots[order[k]].quantity > 0.0
    ensures forall j :: 0 <= j < |lots| && j !in order ==> DepleteAlong(lots, order, remaining, now)[j] == lots[j]
    decreases |order|
  {
    if order != [] && remaining > 0.0 {
      WalkStep(lots, order, remaining, now);
      var lots1 := TakeFrom(lots, order[0], remaining, now);
      DepleteAlongOffWalk(lots1, order[1..], remaining - Min(remaining, lots[order[0]].quantity), now);
    }
  }

  /** A lot on the walk is at most drained to zero. */
  lemma {:induction false} DepleteAlongTouched(lots: seq<StockLot>, order: seq<nat>, remaining: real, now: nat)
    requires Indices(order, |lots|) && Distinct(order)
    requires forall k :: 0 <= k < |order| ==> lots[order[k]].quantity > 0.0
    ensures forall j :: 0 <= j < |lots| ==>
      DepleteAlong(lots, order, remaining, now)[j] == lots[j] || Touched(lots[j], DepleteAlong(lots, order, remaining, now)[j], now)
    decreases |order|
  {
    if order != [] && remaining > 0.0 {
      var i := order[0];
      WalkStep(lots, order, remaining, now);
      var lots1 := TakeFrom(lots, i, remaining, now);
      var rest := order[1..];
      var rem1 := remaining - Min(remaining, lots[i].quantity);
      DepleteAlongTouched(lots1, rest, rem1, now);
      DepleteAlongOffWalk(lots1, rest, rem1, now);
      var r := DepleteAlong(lots1, rest, rem1, now);
      forall j | 0 <= j < |lots| ensures r[j] == lots[j] || Touched(lots[j], r[j], now) {
        if j == i {
          assert r[i] == lots1[i];
        } else {
          assert lots1[j] == lots[j];
        }
      }
    }
  }

  /** The walk takes `min(remaining, total of the listed lots)` from them. */
  lemma {:induction false} DepleteAlongAmount(lots: seq<StockLot>, order: seq<nat>, remaining: real, now: nat)
    requires Indices(order, |lots|) && Distinct(order)
    requires forall k :: 0 <= k < |order| ==> lots[order[k]].quantity > 0.0
    ensures 0.0 <= QtyAlong(lots, order)
    ensures QtyAlong(lots, order) - QtyAlong(DepleteAlong(lots, order, remaining, now), order)
            == if remaining <= 0.0 then 0.0 else Min(remaining, QtyAlong(lots, order))
    decreases |order|
  {
    if order != [] {
      var i := order[0];
      var rest := order[1..];
      if remaining <= 0.0 {
        assert order == [i] + rest;
        assert Distinct(rest);
        DepleteAlongAmount(lots, rest, remaining, now);
      } else {
        WalkStep(lots, order, remaining, now);
        var lots1 := TakeFrom(lots, i, remaining, now);
        var rem1 := remaining - Min(remaining, lots[i].quantity);
        DepleteAlongAmount(lots1, rest, rem1, now);
        DepleteAlongOffWalk(lots1, rest, rem1, now);
        QtyAlongUpdate(lots, rest, i, lots1[i]);
        var r := DepleteAlong(lots1, rest, rem1, now);
        assert r[i] == lots1[i];
        QtyAlongUpdate(r, rest, i, lots[i]);
        assert r[i := lots[i]][i := lots1[i]] == r;
      }
    }
  }

  /** FIFO: along the walk, a lot is changed only when every lot before it was drained to 0. */
  lemma {:induction false} DepleteAlongFifo(lots: seq<StockLot>, order: seq<nat>, remaining: real, now: nat)
    requires Indices(order, |lots|) && Distinct(order)
    requires forall k :: 0 <= k < |order| ==> lots[order[k]].quantity > 0.0
    ensures var r := DepleteAlong(lots, order, remaining, now);
      forall a, b :: 0 <= a < b < |order| && r[order[b]] != lots[order[b]] ==> r[order[a]].quantity == 0.0
    decreases |order|
  {
    if order != [] && remaining > 0.0 {
      var i := order[0];
      var rest := order[1..];
      WalkStep(lots, order, remaining, now);
      var lots1 := TakeFrom(lots, i, remaining, now);
      var rem1 := remaining - Min(remaining, lots[i].quantity);
      var r := DepleteAlong(lots1, rest, rem1, now);
      if remaining <= lots[i].quantity {
        assert r == lots1;
      } else {
        assert lots1[i].quantity == 0.0;
        DepleteAlongOffWalk(lots1, rest, rem1, now);
        DepleteAlongFifo(lots1, rest, rem1, now);
        forall a, b | 0 <= a < b < |order| && r[order[b]] != lots[order[b]]
          ensures r[order[a]].quantity == 0.0
        {
          assert order[b] == rest[b - 1];
          if a == 0 {
            assert r[i] == lots1[i];
          } else {
            assert order[a] == rest[a - 1];
          }
        }
      }
    }
  }

  /** Sum over the first `n` lots of `x` at the positions where `lots` holds a candidate. */
  function CandidateQty(x: seq<StockLot>, lots: seq<StockLot>, t: nat, m: nat, n: nat): real
    requires n <= |x| && n <= |lots|
  {
    if n == 0 then 0.0
    else CandidateQty(x, lots, t, m, n - 1) + (if IsCandidate(lots[n - 1], t, m) then x[n - 1].quantity else 0.0)
  }

  /** Walking the candidates sums exactly the candidate positions. */
  lemma {:induction false} QtyAlongCandidates(x: seq<StockLot>, lots: seq<StockLot>, t: nat, m: nat, n: nat)
    requires |x| == |lots| && n <= |lots|
    ensures QtyAlong(x, CandidatesUpTo(lots, t, m, n)) == CandidateQty(x, lots, t, m, n)
  {
    if n == 0 {
      assert CandidatesUpTo(lots, t, m, n) == [];
    } else {
      QtyAlongCandidates(x, lots, t, m, n - 1);
      var front := CandidatesUpTo(lots, t, m, n - 1);
      if IsCandidate(lots[n - 1], t, m) {
        assert CandidatesUpTo(lots, t, m, n) == front + [n - 1];
        QtyAlongAppend(x, front, n - 1);
      } else {
        assert CandidatesUpTo(lots, t, m, n) == front;
      }
    }
  }

  /** Splits the sum over a table `x` that differs from `lots` only on the candidate lots. */
  lemma {:induction false} StockSplit(lots: seq<StockLot>, x: seq<StockLot>, t: nat, m: nat, n: nat)
    requires |x| == |lots| && n <= |lots|
    requires forall j :: 0 <= j < |lots| && !IsCandidate(lots[j], t, m) ==> x[j] == lots[j]
    requires forall j :: 0 <= j < |lots| ==> x[j].tenant == lots[j].tenant && x[j].material == lots[j].material
    ensures StockOf(x, t, m, n) == CandidateQty(x, lots, t, m, n) + StockOf(lots, t, m, n) - PositiveStockOf(lots, t, m, n)
  {
    if n > 0 {
      StockSplit(lots, x, t, m, n - 1);
      assert x[n - 1].tenant == lots[n - 1].tenant && x[n - 1].material == lots[n - 1].material;
      if !IsCandidate(lots[n - 1], t, m) {
        assert x[n - 1] == lots[n - 1];
      }
    }
  }

  /** The sums of every other (tenant, material) are blind to changes confined to (t, m). */
  lemma {:induction false} OtherStockKept(lots: seq<StockLot>, x: seq<StockLot>, t: nat, m: nat, t': nat, m': nat, n: nat)
    requires |x| == |lots| && n <= |lots| && (t' != t || m' != m)
    requires forall j :: 0 <= j < |lots| && !OfMaterial(lots[j], t, m) ==> x[j] == lots[j]
    requires forall j :: 0 <= j < |lots| ==> x[j].tenant == lots[j].tenant && x[j].material == lots[j].material
    ensures StockOf(x, t', m', n) == StockOf(lots, t', m', n)
  {
    if n > 0 {
      OtherStockKept(lots, x, t, m, t', m', n - 1);
    }
  }

  /** One sale line: the stock of (t, m) drops by `min(qty, positive stock)` (nothing for a
      quantity at or below zero), every other sum is unchanged, lots the query does not select
      are left alone, and every changed lot ends with a quantity between zero and its old one. */
  lemma DepleteLineEffect(lots: seq<StockLot>, t: nat, m: nat, qty: real, now: nat)
    ensures var r := DepleteLine(lots, t, m, qty, now);
      && Available(lots, t, m) - Available(r, t, m)
         == (if qty <= 0.0 then 0.0 else Min(qty, PositiveStock(lots, t, m)))
      && (forall t', m' :: t' != t || m' != m ==> Available(r, t', m') == Available(lots, t', m'))
      && (forall j :: 0 <= j < |lots| && !IsCandidate(lots[j], t, m) ==> r[j] == lots[j])
      && (forall j :: 0 <= j < |lots| ==> r[j] == lots[j] || Touched(lots[j], r[j], now))
  {
    var order := FifoOrder(lots, t, m);
    FifoOrderSpec(lots, t, m);
    var c := CandidatesUpTo(lots, t, m, |lots|);
    var r := DepleteLine(lots, t, m, qty, now);
    DepleteAlongOffWalk(lots, order, qty, now);
    DepleteAlongTouched(lots, order, qty, now);
    DepleteAlongAmount(lots, order, qty, now);
    StockSplit(lots, r, t, m, |lots|);
    StockSplit(lots, lots, t, m, |lots|);
    QtyAlongCandidates(r, lots, t, m, |lots|);
    QtyAlongCandidates(lots, lots, t, m, |lots|);
    QtyAlongSort(r, c, ByStamp(lots));
    QtyAlongSort(lots, c, ByStamp(lots));
    forall t', m' | t' != t || m' != m
      ensures Available(r, t', m') == Available(lots, t', m')
    {
      OtherStockKept(lots, r, t, m, t', m', |lots|);
    }
  }

  /** A line whose quantity the stock of its material covers is deducted in full. */
  lemma CoveredLineDeductsInFull(lots: seq<StockLot>, t: nat, m: nat, qty: real, now: nat)
    requires 0.0 <= qty <= Available(lots, t, m)
    ensures Available(DepleteLine(lots, t, m, qty, now), t, m) == Available(lots, t, m) - qty
  {
    DepleteLineEffect(lots, t, m, qty, now);
    AvailableWithinPositive(lots, t, m, |lots|);
  }

  /** FIFO on one line: in `last_updated` order, a lot is touched only after every older
      selected lot was drained to zero. */
  lemma DepleteLineFifo(lots: seq<StockLot>, t: nat, m: nat, qty: real, now: nat)
    ensures var order := FifoOrder(lots, t, m);
            var r := DepleteLine(lots, t, m, qty, now);
      forall a, b :: 0 <= a < b < |order| && r[order[b]] != lots[order[b]] ==>
        lots[order[a]].lastUpdated <= lots[order[b]].lastUpdated && r[order[a]].quantity == 0.0
  {
    FifoOrderSpec(lots, t, m);
    DepleteAlongFifo(lots, FifoOrder(lots, t, m), qty, now);
  }

  /** `x` differs from `lots` on the lots of (t, m) only by positive lots drained to a quantity
      at or above zero; no lot changes its tenant or material. */
  predicate DrainedOnly(lots: seq<StockLot>, x: seq<StockLot>, t: nat, m: nat)
  {
    |x| == |lots|
    && (forall j :: 0 <= j < |lots| ==> x[j].tenant == lots[j].tenant && x[j].material == lots[j].material)
    && (forall j :: 0 <= j < |lots| && OfMaterial(lots[j], t, m) ==>
          x[j] == lots[j] || (lots[j].quantity > 0.0 && x[j].quantity >= 0.0))
  }

  lemma DrainedOnlyTransitive(a: seq<StockLot>, b: seq<StockLot>, c: seq<StockLot>, t: nat, m: nat)
    requires DrainedOnly(a, b, t, m) && DrainedOnly(b, c, t, m)
    ensures DrainedOnly(a, c, t, m)
  {
    forall j | 0 <= j < |a| && OfMaterial(a[j], t, m)
      ensures c[j] == a[j] || (a[j].quantity > 0.0 && c[j].quantity >= 0.0)
    {
      assert OfMaterial(b[j], t, m);
    }
  }

  /** Draining never takes more from (t, m) than its positive lots held. */
  lemma {:induction false} DrainedWithinPositive(lots: seq<StockLot>, x: seq<StockLot>, t: nat, m: nat, n: nat)
    requires DrainedOnly(lots, x, t, m) && n <= |lots|
    ensures StockOf(lots, t, m, n) - StockOf(x, t, m, n) <= PositiveStockOf(lots, t, m, n)
  {
    if n > 0 {
      DrainedWithinPositive(lots, x, t, m, n - 1);
      AvailableWithinPositive(lots, t, m, n - 1);
    }
  }

  /** Any sale line, of any material, only drains positive lots of (t, m). */
  lemma DepleteLineDrains(lots: seq<StockLot>, t: nat, m': nat, qty: real, now: nat, m: nat)
    ensures DrainedOnly(lots, DepleteLine(lots, t, m', qty, now), t, m)
  {
    DepleteLineEffect(lots, t, m', qty, now);
  }

  /** The upsert's lookup: the lot with this key, if any. */
  function FindLot(lots: seq<StockLot>, t: nat, m: nat, p: nat): (r: Option<nat>)
    ensures r.Some? ==> r.value < |lots| && Key(lots[r.value]) == (t, m, p)
    ensures r.None? ==> forall j :: 0 <= j < |lots| ==> Key(lots[j]) != (t, m, p)
  {
    if lots == [] then None
    else if Key(lots[|lots| - 1]) == (t, m, p) then Some(|lots| - 1)
    else FindLot(lots[..|lots| - 1], t, m, p)
  }

  /** One unit of approved stock: material, quantity and unit price. */
  datatype Deposit = Deposit(material: nat, quantity: real, price: real)

  /** `INSERT ... ON CONFLICT (tenant_id, material_id, partner_id) DO UPDATE`: add to the lot
      and overwrite its price, or create it. */
  function Upsert(lots: seq<StockLot>, t: nat, p: nat, d: Deposit, now: nat): seq<StockLot>
  {
    match FindLot(lots, t, d.material, p)
    case Some(i) =>
      lots[i := lots[i].(quantity := lots[i].quantity + d.quantity, price := d.price, lastUpdated := now)]
    case None => lots + [StockLot(t, d.material, p, d.quantity, d.price, now)]
  }

  lemma {:induction false} StockOfAgree(x: seq<StockLot>, y: seq<StockLot>, t: nat, m: nat, n: nat)
    requires n <= |x| && n <= |y|
    requires forall j :: 0 <= j < n ==> x[j] == y[j]
    ensures StockOf(x, t, m, n) == StockOf(y, t, m, n)
  {
    if n > 0 {
      StockOfAgree(x, y, t, m, n - 1);
    }
  }

  lemma {:induction false} StockOfUpdate(lots: seq<StockLot>, i: nat, v: StockLot, t: nat, m: nat, n: nat)
    requires i < |lots| && n <= |lots|
    ensures StockOf(lots[i := v], t, m, n)
            == StockOf(lots, t, m, n) + (if i < n then Share(v, t, m) - Share(lots[i], t, m) else 0.0)
  {
    if n > 0 {
      StockOfUpdate(lots, i, v, t, m, n - 1);
    }
  }

  /** The upsert: the key stays unique; with the lot present its quantity grows by the deposit
      and its price becomes the deposit's, otherwise one lot is appended; no other lot changes,
      and the stock of the deposited material grows by the deposited quantity. */
  lemma UpsertEffect(lots: seq<StockLot>, t: nat, p: nat, d: Deposit, now: nat)
    requires UniqueKeys(lots)
    ensures var r := Upsert(lots, t, p, d, now);
      && UniqueKeys(r)
      && |lots| <= |r|
      && (forall j :: 0 <= j < |lots| && Key(lots[j]) != (t, d.material, p) ==> r[j] == lots[j])
      && (forall j :: 0 <= j < |lots| && Key(lots[j]) == (t, d.material, p) ==>
            |r| == |lots| && r[j] == lots[j].(quantity := lots[j].quantity + d.quantity, price := d.price, lastUpdated := now))
      && ((forall j :: 0 <= j < |lots| ==> Key(lots[j]) != (t, d.material, p)) ==>
            r == lots + [StockLot(t, d.material, p, d.quantity, d.price, now)])
      && (forall t', m' :: Available(r, t', m')
            == Available(lots, t', m') + (if t' == t && m' == d.material then d.quantity else 0.0))
  {
    var r := Upsert(lots, t, p, d, now);
    match FindLot(lots, t, d.material, p)
    case Some(i) =>
      forall t', m' ensures Available(r, t', m')
            == Available(lots, t', m') + (if t' == t && m' == d.material then d.quantity else 0.0)
      {
        StockOfUpdate(lots, i, r[i], t', m', |lots|);
      }
    case None =>
      forall t', m' ensures Available(r, t', m')
            == Available(lots, t', m') + (if t' == t && m' == d.material then d.quantity else 0.0)
      {
        StockOfAgree(r, lots, t', m', |lots|);
      }
  }

  /** Total quantity of material `m` in a list of deposits. */
  function DepositedQty(ds: seq<Deposit>, m: nat): real
  {
    if ds == [] then 0.0
    else DepositedQty(ds[..|ds| - 1], m) + (if ds[|ds| - 1].material == m then ds[|ds| - 1].quantity else 0.0)
  }

  /** The approval's upsert loop, one deposit after the other into the lots of partner `p`. */
  function DepositAll(lots: seq<StockLot>, t: nat, p: nat, ds: seq<Deposit>, now: nat): seq<StockLot>
  {
    if ds == [] then lots
    else Upsert(DepositAll(lots, t, p, ds[..|ds| - 1], now), t, p, ds[|ds| - 1], now)
  }

  /** The lot is one a deposit of the list lands in. */
  predicate Receives(l: StockLot, t: nat, p: nat, ds: seq<Deposit>)
  {
    l.tenant == t && l.partner == p && exists k :: 0 <= k < |ds| && ds[k].material == l.material
  }

  /** A deposit list raises the stock of each material of tenant `t` by its deposited quantity,
      leaves other tenants' sums alone, keeps keys unique, and leaves every lot of another
      tenant, partner or material as it was. */
  lemma {:induction false} DepositAllEffect(lots: seq<StockLot>, t: nat, p: nat, ds: seq<Deposit>, now: nat)
    requires UniqueKeys(lots)
    ensures var r := DepositAll(lots, t, p, ds, now);
      && UniqueKeys(r)
      && |lots| <= |r|
      && (forall t', m' :: Available(r, t', m')
            == Available(lots, t', m') + (if t' == t then DepositedQty(ds, m') else 0.0))
      && (forall j :: 0 <= j < |lots| && !Receives(lots[j], t, p, ds) ==> r[j] == lots[j])
  {
    if ds != [] {
      var front := ds[..|ds| - 1];
      var d := ds[|ds| - 1];
      DepositAllEffect(lots, t, p, front, now);
      var mid := DepositAll(lots, t, p, front, now);
      UpsertEffect(mid, t, p, d, now);
      var r := DepositAll(lots, t, p, ds, now);
      forall j | 0 <= j < |lots| && !Receives(lots[j], t, p, ds)
        ensures r[j] == lots[j]
      {
        assert forall k :: 0 <= k < |front| ==> front[k] == ds[k];
        assert mid[j] == lots[j];
      }
    }
  }
}
