/** The money ledger's routes: the two listings and the manual entry of a payment or a
    receipt. */
module MoneyRoutes {
  import opened Common
  import opened Schema
  import opened Query
  import opened MoneyLedger
  import opened Database

  function MoneyDate(money: seq<MoneyRow>, k: nat): nat
  {
    if k < |money| then money[k].date else 0
  }

  /** `ORDER BY transaction_date DESC`. */
  function LaterRowFirst(money: seq<MoneyRow>): (nat, nat) -> bool
  {
    (a: nat, b: nat) => MoneyDate(money, a) >= MoneyDate(money, b)
  }

  /** A row `GET /money` returns: the tenant's, joined to its partner. */
  predicate MoneyListed(money: seq<MoneyRow>, partners: seq<Partner>, t: nat, k: nat)
  {
    k < |money| && money[k].tenant == t && money[k].partner < |partners|
  }

  /** `GET /money`: exactly the tenant's ledger rows with a partner to join, each once, newest
      first. */
  function ListMoney(money: seq<MoneyRow>, partners: seq<Partner>, t: nat): (r: seq<nat>)
    ensures forall k: nat :: k in r <==> MoneyListed(money, partners, t, k)
    ensures Distinct(r)
    ensures forall i, j :: 0 <= i < j < |r| ==> r[i] < |money| && r[j] < |money| && money[r[j]].date <= money[r[i]].date
  {
    var r := SelectSorted(|money|, (k: nat) => MoneyListed(money, partners, t, k), LaterRowFirst(money));
    assert forall k :: 0 <= k < |r| ==> r[k] in r;
    r
  }

  /** A row `GET /money/partner/:partnerId` returns: the tenant's rows of that partner. */
  predicate PartnerRow(money: seq<MoneyRow>, t: nat, p: nat, k: nat)
  {
    k < |money| && money[k].tenant == t && money[k].partner == p
  }

  /** `GET /money/partner/:partnerId`: exactly the tenant's rows of the partner, each once,
      newest first. */
  function PartnerMoney(money: seq<MoneyRow>, t: nat, p: nat): (r: seq<nat>)
    ensures forall k: nat :: k in r <==> PartnerRow(money, t, p, k)
    ensures Distinct(r)
    ensures forall i, j :: 0 <= i < j < |r| ==> r[i] < |money| && r[j] < |money| && money[r[j]].date <= money[r[i]].date
  {
    var r := SelectSorted(|money|, (k: nat) => PartnerRow(money, t, p, k), LaterRowFirst(money));
    assert forall k :: 0 <= k < |r| ==> r[k] in r;
    r
  }

  /** The partner listing is the part of the full listing that concerns a known partner. */
  lemma PartnerMoneyWithinList(money: seq<MoneyRow>, partners: seq<Partner>, t: nat, p: nat)
    requires p < |partners|
    ensures forall k: nat :: k in PartnerMoney(money, t, p) <==> k in ListMoney(money, partners, t) && money[k].partner == p
  {
  }

  /** A manual entry's row: the type the user chose, the amount, the payment method. */
  function ManualRow(t: nat, p: nat, kind: MoneyKind, amount: real, paymentMethod: string, now: nat): MoneyRow
  {
    MoneyRow(t, p, kind, amount, Manual(paymentMethod), now)
  }

  /** A manual entry moves its partner's account down by its amount, payment or receipt
      alike, and leaves every other account alone. */
  lemma ManualEntryEffect(money: seq<MoneyRow>, t: nat, p: nat, kind: MoneyKind, amount: real, paymentMethod: string,
                          now: nat, q: nat)
    ensures Net(money + [ManualRow(t, p, kind, amount, paymentMethod, now)], q)
            == Net(money, q) - (if q == p then amount else 0.0)
  {
    NetAppend(money, ManualRow(t, p, kind, amount, paymentMethod, now), q);
  }

  /** The entry's type is stored but never read by the balance: a payment and a receipt of
      the same amount leave every account the same. */
  lemma ManualKindIgnored(money: seq<MoneyRow>, t: nat, p: nat, amount: real, paymentMethod: string, now: nat, q: nat)
    ensures Net(money + [ManualRow(t, p, Payment, amount, paymentMethod, now)], q)
            == Net(money + [ManualRow(t, p, Receipt, amount, paymentMethod, now)], q)
  {
    ManualEntryEffect(money, t, p, Payment, amount, paymentMethod, now, q);
    ManualEntryEffect(money, t, p, Receipt, amount, paymentMethod, now, q);
  }

  /** The entry keeps every balance equal to its ledger account. */
  lemma ManualKeepsBalances(partners: seq<Partner>, money: seq<MoneyRow>, t: nat, p: nat, kind: MoneyKind,
                            amount: real, paymentMethod: string, now: nat)
    requires BalancesMatch(partners, money) && p < |partners|
    ensures BalancesMatch(partners[p := partners[p].(balance := partners[p].balance - amount)],
                          money + [ManualRow(t, p, kind, amount, paymentMethod, now)])
  {
    var partners' := partners[p := partners[p].(balance := partners[p].balance - amount)];
    forall q | 0 <= q < |partners'|
      ensures partners'[q].balance == Net(money + [ManualRow(t, p, kind, amount, paymentMethod, now)], q)
    {
      ManualEntryEffect(money, t, p, kind, amount, paymentMethod, now, q);
    }
  }

  /** `POST /money`: store the entry and lower the partner's balance by its amount whatever its
      type. An unknown partner fails the insert and nothing is written. */
  method CreateMoney(db: Store, t: nat, partner: nat, kind: MoneyKind, amount: real, paymentMethod: string, now: nat)
    returns (r: Result<nat>)
    requires db.Valid()
    modifies db`partners, db`money
    ensures db.Valid()
    ensures r.Ok? <==> partner < |old(db.partners)|
    ensures r.Err? ==> r.error == UnknownPartner && unchanged(db)
    ensures r.Ok? ==>
      && r.value == |old(db.money)|
      && db.money == old(db.money) + [ManualRow(t, partner, kind, amount, paymentMethod, now)]
      && db.partners == old(db.partners)[partner := old(db.partners)[partner].(balance := old(db.partners)[partner].balance - amount)]
  {
    if partner >= |db.partners| {
      return Err(UnknownPartner);
    }
    ManualKeepsBalances(db.partners, db.money, t, partner, kind, amount, paymentMethod, now);
    var id := |db.money|;
    db.money := db.money + [ManualRow(t, partner, kind, amount, paymentMethod, now)];
    var balanceChange := -amount;
    db.partners := db.partners[partner := db.partners[partner].(balance := db.partners[partner].balance + balanceChange)];
    r := Ok(id);
  }
}
