/** The partner routes that write: creating a partner and editing its details. Neither writes
    the balance column, which only the ledger-posting handlers move. */
module PartnerRoutes {
  import opened Common
  import opened Schema
  import opened MoneyLedger
  import opened Database

  /** A new partner has no ledger rows yet, so the balance column's default of zero is its
      account, and every other account is unchanged. */
  lemma NewPartnerKeepsBalances(partners: seq<Partner>, money: seq<MoneyRow>, p: Partner)
    requires BalancesMatch(partners, money) && p.balance == 0.0
    ensures BalancesMatch(partners + [p], money)
  {
    NetOfStranger(money, |partners|);
  }

  /** `POST /partners`: insert the partner for the tenant with the given details; the balance is
      left to its default of zero. */
  method CreatePartner(db: Store, t: nat, name: string, kind: PartnerKind, phone: string, email: string, address: string)
    returns (id: nat)
    requires db.Valid()
    modifies db`partners
    ensures db.Valid()
    ensures id == |old(db.partners)|
    ensures db.partners == old(db.partners) + [Partner(t, name, kind, phone, email, address, 0.0)]
    ensures db.money == old(db.money) && db.receivings == old(db.receivings) && db.stock == old(db.stock)
  {
    var row := Partner(t, name, kind, phone, email, address, 0.0);
    NewPartnerKeepsBalances(db.partners, db.money, row);
    id := |db.partners|;
    db.partners := db.partners + [row];
  }

  /** Editing the details of a partner keeps every balance equal to its ledger account. */
  lemma EditKeepsBalances(partners: seq<Partner>, money: seq<MoneyRow>, p: nat, row: Partner)
    requires BalancesMatch(partners, money) && p < |partners| && row.balance == partners[p].balance
    ensures BalancesMatch(partners[p := row], money)
  {
  }

  /** `PUT /partners/:id`: a partner of the tenant gets the given name, type and contact
      details; its balance and every other partner stay as they were. Another tenant's partner
      or a missing one is not found and nothing changes. */
  method UpdatePartner(db: Store, t: nat, p: nat, name: string, kind: PartnerKind, phone: string, email: string,
                       address: string) returns (r: Result<()>)
    requires db.Valid()
    modifies db`partners
    ensures db.Valid()
    ensures r.Ok? <==> p < |old(db.partners)| && old(db.partners)[p].tenant == t
    ensures r.Err? ==> r.error == NotFound && db.partners == old(db.partners)
    ensures |db.partners| == |old(db.partners)|
    ensures forall q :: 0 <= q < |db.partners| ==> db.partners[q].balance == old(db.partners)[q].balance
    ensures forall q :: 0 <= q < |db.partners| && q != p ==> db.partners[q] == old(db.partners)[q]
    ensures r.Ok? ==>
      db.partners[p] == old(db.partners)[p].(name := name, kind := kind, phone := phone, email := email, address := address)
  {
    if p >= |db.partners| || db.partners[p].tenant != t {
      return Err(NotFound);
    }
    var row := db.partners[p].(name := name, kind := kind, phone := phone, email := email, address := address);
    EditKeepsBalances(db.partners, db.money, p, row);
    db.partners := db.partners[p := row];
    r := Ok(());
  }
}
