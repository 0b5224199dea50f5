/** The rows of the tenant-scoped tables and the request payloads that the handlers read.
    Every id is a natural number; amounts, weights and prices are exact reals. */
module Schema {
  import opened Common

  datatype PartnerKind = Customer | Supplier | Bank

  /** A counterparty with its contact details and its running balance. */
  datatype Partner = Partner(
    tenant: nat, name: string, kind: PartnerKind, phone: string, email: string, address: string, balance: real)

  /** A tracked commodity (table materials). */
  datatype Material = Material(tenant: nat, name: string)

  /** Status of a purchase: pending -> inspected -> approved, or -> rejected. */
  datatype Status = Pending | Inspected | Approved | Rejected

  /** A purchase header (table receiving_transactions). */
  datatype ReceivingTx = ReceivingTx(
    tenant: nat, partner: nat, logistics: real, total: real, status: Status, date: nat)

  /** One purchased line (table receiving_items); net and effective price stay null until inspected. */
  datatype ReceivingItem = ReceivingItem(
    tx: nat, material: nat, gross: real, unitPrice: real, logisticsShare: real, total: real,
    net: Option<real>, effective: Option<real>)

  /** A sample-based loss measurement of one receiving item (table inspections). */
  datatype Inspection = Inspection(
    tenant: nat, item: nat, sample: real, totalUllage: real, percentage: real, date: nat)

  /** One measured loss component of an inspection (table inspection_items). */
  datatype InspectionItem = InspectionItem(inspection: nat, ullageType: nat, weight: real)

  /** A stock lot (table stock), unique on (tenant, material, partner). */
  datatype StockLot = StockLot(
    tenant: nat, material: nat, partner: nat, quantity: real, price: real, lastUpdated: nat)

  /** A sale header (table selling_transactions). */
  datatype Sale = Sale(tenant: nat, partner: nat, total: real, date: nat)

  /** One sold line (table selling_items). */
  datatype SaleItem = SaleItem(sale: nat, material: nat, quantity: real, unitPrice: real, total: real)

  datatype MoneyKind = Payment | Receipt

  /** Who wrote a money row: the approval handler, the sale handler, or a user through the
      manual entry form (whose payment method text is kept). */
  datatype Posting = ApprovalPosting | SalePosting | Manual(paymentMethod: string)

  /** An append-only ledger row (table money_transactions). */
  datatype MoneyRow = MoneyRow(
    tenant: nat, partner: nat, kind: MoneyKind, amount: real, posting: Posting, date: nat)

  /** Request payload lines. */
  datatype ReceivingLine = ReceivingLine(material: nat, gross: real, unitPrice: real)
  datatype UllageLine = UllageLine(ullageType: nat, weight: real)
  datatype SaleLine = SaleLine(material: nat, quantity: real, unitPrice: real)
}
