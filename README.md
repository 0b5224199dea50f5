# Scrap-yard inventory and ledger engine, modelled in Dafny

This project models the core of a multi-tenant scrap-recycling back office.

- **Purchases** ("receiving") are created as pending. Their total is the logistics cost plus every line's gross weight times unit price. The logistics cost is split evenly over the lines.
- **Inspections** measure the loss ("ullage") on a sample of one purchased line. The server derives:
  - the loss percentage,
  - the net weight,
  - an effective unit price that spreads the line's purchase value over the net weight.
- **Completion.** When the last line of a purchase is inspected, the purchase becomes *inspected* and its total is recomputed.
- **Approval** of an inspected purchase does four things:
  - upserts every line into the stock lot keyed by (tenant, material, partner), at its net weight;
  - raises the partner's balance by the purchase total;
  - posts a payment row to the money ledger;
  - marks the purchase approved.
- **Reject and delete.** A pending or inspected purchase can be rejected. A pending one can be deleted together with its lines.
- **Sales** check each line against the stock as it was before the sale. They then store the sale and its lines, and deplete each line's material from the tenant's positive lots, oldest `last_updated` first (FIFO). Finally they raise the customer's balance and post a receipt row.
- **Manual money entries** (payment or receipt) lower the partner's balance by their amount.
- **Stock views.** The summary view sums the lots per material. The detail view lists a material's positive lots in FIFO order.
- **Browser preview.** The inspection form shows a live valuation preview, and it filters the loss lines it submits.

## How the model is built

- **`Database.Store`** is a class holding every table as a sequence indexed by serial id. The purchase and purchase-line tables hold `None` in place of a deleted row.
- **Handlers** are methods on the store.
  - Each one names the fields it writes in `modifies`.
  - Each one says in `ensures` what the new state is.
  - An error result leaves those fields unchanged.
  - Each one keeps the store invariant `Store.Valid`, made of two predicates:
    - `Database.Consistent`, which says:
      - every purchase names a known partner and every line a known purchase;
      - an inspected line carries both its net weight and an effective price with `effective * net == gross * unitPrice`;
      - a purchase's total is its logistics cost plus its lines' gross value;
      - an inspected or approved purchase has no uninspected line;
      - stock lot keys are unique;
      - every money ledger row names a known partner, and every partner balance equals the signed sum of its rows.
    - `Database.InspectionsRecorded`: every inspection's percentage is its loss over its sample, and its total loss is the sum of its stored loss lines.
- **`SELECT … ORDER BY`** is modelled by `Query.SelectSorted`. It is an insertion sort of the selected row ids that is stable, so ties keep row-id order. Every listing is proved to return exactly the selected rows, each once, in the stated order.
- **Loops.** The handlers' loops keep their loop form, proved against recursive specification functions:
  - the total accumulations;
  - the line inserts;
  - the sale's per-line check;
  - the sale's store-and-deplete loop;
  - the FIFO walk over the lot rows.
- **Client code.** The browser-side preview and submit filter are pure functions.

### Behaviour the model makes explicit

- **Preview price differs from the stored price.** The server's effective price is `gross * unitPrice / net`, with no logistics share. The browser preview shows `(unitPrice * gross + logisticsShare) / net`, so it exceeds the stored price by `logisticsShare / net` (`InspectionPreview.PreviewPriceExceedsServer`, `InspectionPreview.PreviewMatchesSubmission`). Because the stored price omits the share, the total recomputed at completion equals the provisional total at creation (`InspectionRoutes.InspectionSettles`). That holds because the logistics cost added back at completion is the purchase's, not the line's share. The line lookup (server/routes/inspections.ts:65) selects both `ri.*`, which has the line's `logistics_cost` column, and `rt.logistics_cost`. The node-postgres driver keeps the last of two equally named columns, so the purchase's cost wins.
- **Preview loss differs from the submitted loss.** The preview counts weight typed on a loss line without a loss type, but the submit drops that line (`InspectionPreview.PreviewUllageVsSubmitted`, `InspectionPreview.UntypedLineShowsInPreviewOnly`).
- **Empty purchases are accepted.** Creating a purchase with no lines succeeds. The result is a pending purchase whose total is its logistics cost alone (`ReceivingRoutes.CreateReceiving`).
- **Oversell.** The sale check compares each line separately with the stock before the sale. Two lines of one material can together ask for more than the stock. The sale then records the full quantity sold but drains the stock only to zero (`SellingRoutes.PerLineCheckAdmitsOversell`). In general, a sale never takes more of a material than its positive stock. So whenever the check passes a sale whose lines together ask for more than that, the stock drops by less than the quantity recorded (`SellingRoutes.PerLineCheckOversells`). When each material's total demand is within its stock, the whole demand is deducted (`SellingRoutes.SellLinesWithinStock`).
- **Re-inspection re-opens an approved purchase.** Inspection has no status guard. Re-inspecting a line of an approved purchase sends the purchase back to *inspected*, from where it can be approved, and deposited into stock, again (`InspectionRoutes.ApprovedReturnsToInspected`).
- **Inspection revives a rejected purchase.** For the same reason, inspecting the last open line of a rejected purchase makes it *inspected*, the state approval accepts (`InspectionRoutes.RejectedReturnsToInspected`).
- **Partner edits never touch the balance.** Creating a partner leaves the balance at its default of zero, and editing one writes only its name, type and contact details. Only the posting handlers move a balance (`PartnerRoutes.CreatePartner`, `PartnerRoutes.UpdatePartner`).
- **Manual entries ignore their type.** A payment and a receipt of the same amount move the balance identically (`MoneyRoutes.ManualKindIgnored`).

## Model

| member | source | states |
|---|---|---|
| Valuation.UllagePercentage | server/routes/inspections.ts:84-85 | the percentage times the sample equals the total loss times 100 |
| Valuation.NetWeight | server/routes/inspections.ts:87-88 | no loss keeps the gross weight; a 100% loss gives zero; a percentage in [0, 100] keeps the net weight between zero and the gross weight |
| Valuation.EffectivePrice | server/routes/inspections.ts:108-111 | effective price times net weight is the line's purchase value, with no logistics share |
| Valuation.NetWeightFromSample | server/routes/inspections.ts:84-88 | net weight times sample is gross times the unspoiled part of the sample; a loss within the sample keeps the net weight between zero and the gross weight |
| MoneyLedger.NetDecomposes | server/routes/money.ts:56-64 | a partner's ledger account is its approval amounts plus its sale amounts minus its manual entries, payments and receipts alike |
| MoneyLedger.NetOfStranger | server/routes/partners.ts:58-61 | a partner without ledger rows has a zero account |
| MoneyLedger.NetAppend | server/routes/money.ts:50-64 | a new ledger row moves only its own partner's account, by its signed amount |
| Database.PricedEqualsGross | server/routes/inspections.ts:129-135 | once every line of a purchase is inspected, the sum of net weight times effective price equals its gross purchase value |
| StockLedger.AvailableWithinPositive | server/routes/selling.ts:71-72 | the summed stock of a material never exceeds the sum of its positive lots, which is non-negative |
| StockLedger.FifoOrderSpec | server/routes/selling.ts:106-110 | the lot query returns exactly the tenant's lots of the material with a positive quantity, each once, oldest `last_updated` first |
| StockLedger.DepleteAlongAmount | server/routes/selling.ts:112-122 | the walk takes min(requested quantity, quantity of the walked lots) from them |
| StockLedger.DepleteAlongFifo | server/routes/selling.ts:112-122 | along the walk a lot is changed only when every earlier lot has been drained to zero |
| StockLedger.DepleteAlongTouched | server/routes/selling.ts:112-122 | each walked lot ends between zero and its old quantity, with a refreshed timestamp |
| StockLedger.DepleteLineEffect | server/routes/selling.ts:104-122 | one sale line lowers the material's stock by min(quantity, positive stock), or by nothing for a non-positive quantity; every other (tenant, material) sum and every unselected lot is unchanged |
| StockLedger.CoveredLineDeductsInFull | server/routes/selling.ts:104-122 | a line that the stock covers is deducted in full |
| StockLedger.DepleteLineFifo | server/routes/selling.ts:104-122 | in `last_updated` order, a lot is drawn from only after every older lot is empty |
| StockLedger.FindLot | server/routes/receiving.ts:172-176 | the conflict lookup finds the lot with the (tenant, material, partner) key, or reports that none exists |
| StockLedger.UpsertEffect | server/routes/receiving.ts:172-178 | the upsert adds to the existing lot and takes the new price, or appends a new lot; keys stay unique; only the deposited material's stock grows, by the deposit |
| StockLedger.DepositAllEffect | server/routes/receiving.ts:167-179 | the upsert loop raises each material of the tenant by the quantity deposited for it; it leaves other tenants and every non-receiving lot alone and keeps keys unique |
| ReceivingRoutes.CreationTotal | server/routes/receiving.ts:102-106 | the provisional total is the logistics cost (zero when absent) plus the sum of gross weight times unit price |
| ReceivingRoutes.NewItemsAt | server/routes/receiving.ts:120-128 | the j-th stored line is the j-th request line, uninspected, with the logistics share |
| ReceivingRoutes.CreatedLinesAccount | server/routes/receiving.ts:117-128 | with at least one line, the shares add up to the logistics cost; the line totals add up to the lines' purchase value |
| ReceivingRoutes.NewItemsGross | server/routes/receiving.ts:120-128 | the new lines raise the purchase's gross value by the request lines' value |
| ReceivingRoutes.CreateKeepsConsistent | server/routes/receiving.ts:95-140 | adding a pending purchase at its provisional total and its lines keeps the store consistent |
| ReceivingRoutes.CreateReceiving | server/routes/receiving.ts:95-140 | succeeds exactly when the partner exists, with any number of lines including none; stores the pending purchase at logistics plus line value and one line per request line; on error nothing changes |
| ReceivingRoutes.LinesOf | server/routes/receiving.ts:161-165 | lists only lines of the purchase; the model takes them in id order, as the query fixes no order |
| ReceivingRoutes.LinesOfComplete | server/routes/receiving.ts:161-165 | every line of the purchase is listed |
| ReceivingRoutes.DepositsCarryNet | server/routes/receiving.ts:168-170 | the deposits of a material add up to the purchase's net weights of it, with the gross weight standing in for a null net weight |
| ReceivingRoutes.ApprovalRaisesStock | server/routes/receiving.ts:167-179 | approval raises each of the tenant's materials by the purchase's net weight of it, keeps lot keys unique and leaves other tenants' stock alone |
| ReceivingRoutes.ApproveKeepsConsistent | server/routes/receiving.ts:181-198 | raising the partner's balance by the total, posting the payment row and marking the purchase approved keeps the store consistent |
| ReceivingRoutes.DepositLines | server/routes/receiving.ts:167-179 | the upsert loop leaves the stock equal to the deposits applied in order, and keeps keys unique |
| ReceivingRoutes.PostApproval | server/routes/receiving.ts:181-198 | partner balance + total, one payment row, status approved |
| ReceivingRoutes.ApplyApproval | server/routes/receiving.ts:161-198 | the stock deposits followed by the bookkeeping, and the store stays valid |
| ReceivingRoutes.Approve | server/routes/receiving.ts:143-209 | succeeds exactly for an inspected purchase of the tenant, which is then deposited, booked and approved; otherwise NotFound and nothing changes |
| ReceivingRoutes.Reject | server/routes/receiving.ts:212-229 | succeeds exactly for a pending or inspected purchase of the tenant, whose status becomes rejected; nothing else changes |
| ReceivingRoutes.DeleteKeepsConsistent | server/routes/receiving.ts:232-246 | removing a purchase with all its lines keeps the store consistent |
| ReceivingRoutes.Delete | server/routes/receiving.ts:232-246 | succeeds exactly for a pending purchase of the tenant, which is removed with its lines; otherwise NotFound and nothing changes |
| ReceivingRoutes.ListReceivings | server/routes/receiving.ts:8-59 | the three listings return exactly the tenant's purchases with a joinable partner (in the requested status, when there is one), each once, newest first |
| InspectionRoutes.UllageTotal | server/routes/inspections.ts:78-82 | the loop's total is the sum of the loss weights |
| InspectionRoutes.LossOfNewLines | server/routes/inspections.ts:99-106 | the stored loss lines of the new inspection add up to its total loss; other inspections' sums are unchanged |
| InspectionRoutes.RecordKeepsRecorded | server/routes/inspections.ts:90-106 | storing a measured inspection with its loss lines keeps every inspection's total equal to the sum of its lines |
| InspectionRoutes.RecordInspection | server/routes/inspections.ts:90-106 | appends the inspection and exactly its loss lines, returning the new inspection id |
| InspectionRoutes.PricedItem | server/routes/inspections.ts:108-117 | the inspected line carries its net weight and a consistent effective price; its other columns are unchanged |
| InspectionRoutes.PricingSums | server/routes/inspections.ts:113-124 | pricing a line keeps every purchase's gross value and never adds an uninspected line |
| InspectionRoutes.InspectionSettles | server/routes/inspections.ts:119-141 | pricing a line and settling its purchase keeps the store consistent; the recomputed total equals the provisional one; a purchase left with an uninspected line keeps its status |
| InspectionRoutes.ApprovedReturnsToInspected | server/routes/inspections.ts:137-141 | re-inspecting a line of an approved purchase makes it inspected again |
| InspectionRoutes.RejectedReturnsToInspected | server/routes/inspections.ts:119-141 | inspecting the last open line of a rejected purchase makes it an inspected purchase of the tenant, which approval accepts |
| InspectionRoutes.PriceItem | server/routes/inspections.ts:108-141 | the line update and, when no line is left uninspected, the status and total update |
| InspectionRoutes.CreateInspection | server/routes/inspections.ts:56-158 | NotFound when the line is not the tenant's; fails when the sample or the net weight is zero; otherwise stores the inspection and its loss lines, prices the line and settles the purchase |
| InspectionRoutes.InspectionHistory | server/routes/inspections.ts:28-53 | exactly the tenant's inspections whose joins resolve, each once, newest first |
| SellingRoutes.FirstShort | server/routes/selling.ts:66-83 | the first line whose quantity exceeds the material's stock before the sale, or none |
| SellingRoutes.CheckStock | server/routes/selling.ts:66-83 | the check loop fails with the first short line's material exactly when there is one; otherwise it returns the sum of quantity times unit price |
| SellingRoutes.SaleItemsAddUp | server/routes/selling.ts:94-102 | the stored sale lines are the request lines at quantity times unit price and add up to the sale total |
| SellingRoutes.SellLinesKeepKeys | server/routes/selling.ts:104-122 | depletion keeps the stock's lot keys unique |
| SellingRoutes.Walk | server/routes/selling.ts:112-122 | the walk over the queried rows leaves the stock as the FIFO depletion specifies |
| SellingRoutes.DepleteStock | server/routes/selling.ts:104-122 | one line's lot query and walk deplete the material as specified |
| SellingRoutes.RecordLine | server/routes/selling.ts:95-122 | one pass stores the line at quantity times unit price and depletes its material |
| SellingRoutes.RecordSaleLines | server/routes/selling.ts:94-123 | the loop stores every line in order and depletes each line from the stock that the earlier lines left |
| SellingRoutes.SalePostKeepsBalances | server/routes/selling.ts:125-136 | raising the customer's balance by the total and posting the receipt row keeps every balance equal to its ledger account |
| SellingRoutes.PostSale | server/routes/selling.ts:125-136 | balance + total, one receipt row |
| SellingRoutes.SaleKeepsConsistent | server/routes/selling.ts:85-136 | a sale's writes keep the store consistent |
| SellingRoutes.ApplySale | server/routes/selling.ts:85-136 | stores the header at the total, its lines and their depletion, then the bookkeeping; the store stays valid |
| SellingRoutes.CheckSale | server/routes/selling.ts:66-90 | fails with the first short line, else with an unknown partner, else returns the sale total |
| SellingRoutes.CreateSale | server/routes/selling.ts:59-147 | fails (and writes nothing) exactly when a line is short of stock before the sale or the partner is unknown; otherwise stores the sale at the summed total, stores and depletes every line, and books the receivable |
| SellingRoutes.SellLinesWithinStock | server/routes/selling.ts:94-123 | when each material's total demand is within its stock, every material drops by exactly its demand |
| SellingRoutes.SellLinesKeepsOtherTenants | server/routes/selling.ts:106-110 | a sale never moves another tenant's stock |
| SellingRoutes.PerLineCheckAdmitsOversell | server/routes/selling.ts:68-80 | two lines of 10 against a single lot of 10 both pass the check; 20 are sold but the stock drops only to zero |
| StockLedger.DrainedWithinPositive | server/routes/selling.ts:112-122 | draining only positive lots to a non-negative quantity takes at most the positive stock |
| StockLedger.DepleteLineDrains | server/routes/selling.ts:104-122 | a sale line of any material only drains positive lots, to a non-negative quantity |
| SellingRoutes.SellLinesDrains | server/routes/selling.ts:94-123 | a whole sale only drains positive lots, to a non-negative quantity |
| SellingRoutes.SaleDrawsAtMostPositiveStock | server/routes/selling.ts:94-123 | a sale lowers a material's stock by at most its positive stock, whatever quantity it records |
| SellingRoutes.PerLineCheckOversells | server/routes/selling.ts:66-123 | whenever the check passes lines that together ask for more than a material's positive stock, its stock drops by less than the quantity recorded |
| SellingRoutes.ListSales | server/routes/selling.ts:8-23 | exactly the tenant's sales joined to their partner, each once, newest first |
| StockRoutes.NameLeAntisymmetric | server/routes/stock.ts:17 | the name order holds both ways only between equal names |
| StockRoutes.SummaryIds | server/routes/stock.ts:13-17 | exactly the tenant's materials, each once, ordered by name |
| StockRoutes.StockSummarySpec | server/routes/stock.ts:8-25 | every material of the tenant appears exactly once, stocked or not, with its name and the sum of the tenant's lots of it (zero when none), ordered by name |
| StockRoutes.StockDetail | server/routes/stock.ts:28-44 | exactly the tenant's lots of the material with a positive quantity, each once, oldest `last_updated` first |
| StockRoutes.DetailIsSaleOrder | server/routes/stock.ts:35-36 | the detail lists lots in the order in which a sale drains them |
| StockRoutes.DetailCoversSummary | server/routes/stock.ts:12-36 | the summary total never exceeds the detail's sum, and equals it when no lot is negative |
| MoneyRoutes.ListMoney | server/routes/money.ts:8-23 | exactly the tenant's ledger rows with a joinable partner, each once, newest first |
| MoneyRoutes.PartnerMoney | server/routes/money.ts:26-39 | exactly the tenant's rows of that partner, each once, newest first |
| MoneyRoutes.PartnerMoneyWithinList | server/routes/money.ts:26-39 | for a known partner, the partner listing is the part of the full listing about that partner |
| MoneyRoutes.ManualEntryEffect | server/routes/money.ts:50-64 | a manual entry lowers its partner's account by its amount and leaves every other account alone |
| MoneyRoutes.ManualKindIgnored | server/routes/money.ts:56-64 | a payment and a receipt of equal amount have the same effect on every account |
| MoneyRoutes.ManualKeepsBalances | server/routes/money.ts:50-64 | the entry keeps every balance equal to its ledger account |
| MoneyRoutes.CreateMoney | server/routes/money.ts:42-75 | fails with nothing written exactly when the partner is unknown; otherwise appends the row and lowers the partner's balance by the amount |
| PartnerRoutes.NewPartnerKeepsBalances | server/routes/partners.ts:53-68 | a new partner at balance zero has no ledger rows, so every balance still equals its account |
| PartnerRoutes.CreatePartner | server/routes/partners.ts:53-68 | appends the tenant's partner with the given details at balance zero; no other table changes |
| PartnerRoutes.EditKeepsBalances | server/routes/partners.ts:70-88 | editing a partner's details without its balance keeps every balance equal to its account |
| PartnerRoutes.UpdatePartner | server/routes/partners.ts:70-88 | only a partner of the tenant is found; it gets the new name, type and contact details; every balance and every other partner stay as they were |
| InspectionPreview.CalculatePreview | src/pages/Inspections.tsx:132-156 | the preview is kept without a selected line or sample; when shown, percentage times sample is the form's loss times 100, the cost includes the logistics share, and effective times net is that cost |
| InspectionPreview.PreviewUndefinedOnZero | src/pages/Inspections.tsx:140-148 | the preview is undefined exactly when the sample or the net weight is zero |
| InspectionPreview.PreviewPriceExceedsServer | src/pages/Inspections.tsx:140-148 | the preview's percentage and net weight are the server's formulas; its effective price is the server's plus logistics share over net weight |
| InspectionPreview.SubmitLinesAppend | src/pages/Inspections.tsx:166-176 | the submit filter works line by line: filtering a concatenation concatenates the filtered parts |
| InspectionPreview.SubmitLinesMembers | src/pages/Inspections.tsx:166-176 | a line is submitted exactly when it has both a loss type and a weight |
| InspectionPreview.PreviewUllageVsSubmitted | src/pages/Inspections.tsx:136-168 | the preview's loss is the submitted loss plus the weight typed on lines without a loss type |
| InspectionPreview.PreviewMatchesSubmission | src/pages/Inspections.tsx:132-176 | with no untyped weight, the preview shows the server's percentage and net weight for the submitted lines, and an effective price above the server's by logistics share over net |
| InspectionPreview.UntypedLineShowsInPreviewOnly | src/pages/Inspections.tsx:136-168 | a weight typed without a loss type shows in the preview's loss but is not submitted |

## Left out

- Numbers are exact reals. The model does not capture JavaScript double rounding, `parseFloat` of malformed text (NaN) or the database's numeric scale.
- CreateInspection: a zero sample or a zero net weight is modelled as a failed request that writes nothing. The code does not check for them: it divides and hands NaN or Infinity to the database.
- CreateInspection: a sample weight or loss weight at or below zero is not rejected, in the code or in the model. The model does not show what the database would do with the resulting values.
- CalculatePreview: a division by zero yields `Undefined` rather than JavaScript's Infinity or NaN on screen.
- The model assumes that numeric columns reach the handlers as non-null strings, so `x || fallback` falls back only on a null column.
- ReceivingRoutes.LogisticsShare: with no lines, the code divides the logistics cost by zero. The model yields 0 there. The quotient is never stored, because no line is inserted.
- ReceivingRoutes.LinesOf: the approval's line query has no `ORDER BY`, and the model takes its rows in id order. When two lines of one purchase share a material, they land in the same lot, and that lot keeps the price of the line deposited last. The database may return the lines in either order, so the model fixes one of the two possible prices. For the same reason it also fixes the order in which new lots are appended.
- ReceivingRoutes.Delete: the lines of a pending purchase may already carry inspections and loss lines. The model leaves those rows in place, pointing at lines that no longer exist. Whether the database removes them with the line or refuses the delete, so that the request fails, depends on foreign keys that are not part of this model.
- The database schema is not part of this model. Three of its behaviours are assumptions:
  - a purchase, sale or money entry naming a missing partner fails its insert;
  - deleting a purchase removes its lines;
  - `(tenant, material, partner)` is unique in the stock table.
  
  Whether a material id exists is not checked.
- The balance `UPDATE` statements filter on the partner id only, not on the tenant. The model applies them to the partner row named in the request.
- `ORDER BY` on a text column is taken as code-point order, without database collation. Rows with equal sort keys come out in row-id order, where the database leaves their order unspecified.
- `NOW()` and the transaction date defaults are a `now` parameter of each handler.
- Columns that no modelled rule reads are not modelled:
  - purchases: document date, plates, report flag and notes;
  - sales and money rows: notes;
  - materials: codes and units of measure.
- The listings return row ids; the joined display columns (partner and material names, the history's aggregated loss lines) are not modelled.
- The name in the insufficient-stock message, which comes from the request, is not modelled. The error carries the material id.
- `GET /receiving/:id`, `GET /selling/:id` and `GET /inspections/item/:itemId` are not modelled. They are single-row lookups with joins and change nothing.
- The partner listings, the single-partner lookup and partner deletion are not modelled. Neither are material and loss-type maintenance, authentication or tenant resolution. The tenant is a parameter of every handler.
- Concurrency between requests is not modelled. Each handler runs as one transaction, and a failing one writes nothing.
- React state, the effects that call the preview, dialogs and rendering are not modelled. The preview and the submit filter are pure functions of the form state.
