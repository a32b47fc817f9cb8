# Cashier cart of a point-of-sale front-end, in Dafny

This project models the checkout logic of a small store's point-of-sale web
front-end and proves properties of it:

- **the cart** (`useProductManagement`): an ordered list of sale lines, at most
  one per product id, with add, quantity change and removal. After every
  change `total` is the sum of the line subtotals and `totalItems` the number
  of lines. On a quantity change the unit price is re-resolved: a manual
  price first, then the member's price (only for a member other than 0),
  then the wholesale ("grosir") tier with the largest `min_qty` not above the
  quantity (only for the walk-in member 0), else the price the line already
  had or, when tiers exist but none applies, the catalog price taken at add time;
- **the unit-price editor** (`useHargaSatuan`): a draft per line id, created on
  focus, updated on change and committed on blur as the line's manual price;
- **the cashier screen** (`Cashier.tsx`): the member selector (walk-in "Umum",
  locked while the cart has lines), product lookup by id, the quantity
  buttons and input, the digits-only price input, the displayed price and the
  price-origin badge (manual / member / grosir / regular);
- **the stand-alone price cell** (`HargaCell.tsx`) with its own draft;
- **the sales views** (`SalesDetail.tsx`, `FullInvoiceView.tsx`): the receipt
  number `"ST"` + the id zero-padded to five digits, the per-line amounts and
  the fallbacks of the cashier and buyer fields.

Files: `wrappers.dfy` (Option), `decimal.dfy` (number to text, text to number,
digit filter, left padding), `catalog.dfy` (the records), `pricing.dfy`,
`product_management.dfy` (class `Cart`), `harga_satuan.dfy` (class
`PriceEditor`), `cashier.dfy` (class `CashierScreen`), `harga_cell.dfy` (class
`HargaCell`), `sales_record.dfy`, `sales_detail.dfy`, `full_invoice.dfy`.

The stateful parts are classes whose fields the handlers reassign (`Cart.lines`,
`PriceEditor.states`, `CashierScreen.selectedMember`, `HargaCell.draft`). Each
method is specified by a pure function of the old state (`LinesAfterAdd`,
`LinesAfterQuantity`, `LinesAfterRemove`, `LinesAfterBlur`). The properties are
lemmas about those functions. `Cart.Valid()` holds across every cart
operation: totals match the lines, ids are unique and every subtotal is
quantity times price. `CashierScreen.Valid()` adds that every draft is digits
only, and holds across every handler.

Modelling choices:

- Money is whole Rupiah (`nat`). Quantities are `int`, because the quantity
  input passes any typed number through unclamped. Subtotals and totals are `int`.
- The optional `member_prices` and `harga_grosir` arrays are sequences. The
  code treats an absent array exactly like an empty one.
- `parseFloat` is modelled as "the value of the leading run of digits, or none
  when the text does not start with a digit". For the digits-only texts the
  screen passes in, this agrees with JavaScript as long as the value is below
  2^53; larger values are rounded by JavaScript and not by the model.
- The toast notifications are a log, `Cart.toasts`, holding the message texts.
- The React effect that recomputes the totals is folded into every cart
  operation, so each handler is one sequential step.
- Selecting a product only adds it when the selection changes. The add runs
  in an effect keyed on the selected product, so picking the product that is
  already selected adds nothing.

Quirks of the code that the model keeps:

- A quantity change does not clamp quantities below 1. Only the minus button
  is disabled at quantity 1 or below. The typed quantity goes through as it is.
- A notification is raised on every quantity change whose origin is member or
  grosir. One is also raised for a regular origin when the line has tiers. So
  it fires on every change, not once per transition (`GrosirToastOnEveryChange`).
- Adding a product never consults the wholesale tiers (`AddIgnoresTiers`).
  So a product whose tiers start at quantity 1 is added at its catalog price
  while its row is already tagged grosir (`NewLineBadgeMayNotMatchPrice`).
- The member is locked only by disabling the selector while the cart has lines.
- On blur the editor commits even an unchanged price. Just focusing and
  leaving the price input pins the line's price as manual
  (`CommitOfSamePriceStillOverrides`). The stand-alone cell does not commit an
  unchanged price (`UntouchedDraftCommitsNothing`).

## Model

| member | source | states |
|---|---|---|
| Decimal.DecimalString | src/hooks/useHargaSatuan.ts:18 | a number's text is a non-empty digit string that starts with '0' only for 0, has one digit exactly below 10, and is "0" for 0 |
| Decimal.DecimalStringValue | src/hooks/useHargaSatuan.ts:18 | reading a number's text back as digits gives the number |
| Decimal.ParseNumber | src/hooks/useHargaSatuan.ts:37-38 | parsing fails exactly when the text does not start with a digit; a digit string parses to its value |
| Decimal.ParseDecimalString | src/pages/cashier/HargaCell.tsx:40 | parsing a price's own text gives that price back |
| Decimal.KeepDigits | src/pages/cashier/Cashier.tsx:345 | the sanitised input is digits only, no longer than the input, and equals the input when that is already digits; a single non-digit character is deleted and a single digit kept |
| Decimal.KeepDigitsAppend | src/pages/cashier/HargaCell.tsx:31 | sanitising two pieces of text joined gives the two sanitised pieces joined, in order |
| Decimal.PadStart | src/pages/sales/SalesDetail.tsx:72 | padding gives length max(width, length), ends with the input and fills the front |
| Decimal.LeadingZerosValue | src/pages/sales/FullInvoiceView.tsx:70 | leading zeros do not change the value of a digit string |
| Pricing.FindMemberPrice | src/hooks/useProductManagement.ts:63-65 | finds the first entry for the member, or none exactly when no entry has that member id |
| Pricing.BestTier | src/hooks/useProductManagement.ts:71-73 | picks a qualifying tier with the largest min_qty, the first such in list order; none exactly when no tier qualifies |
| Pricing.BestTierUnique | src/hooks/useProductManagement.ts:71-73 | the stably sorted head is unique: any tier meeting that description is the one chosen |
| Pricing.ResolvePrice | src/hooks/useProductManagement.ts:55-83 | origin is manual exactly when an override exists; member only for a non-zero member; grosir only for member 0 |
| Pricing.Classify | src/pages/cashier/Cashier.tsx:316-334 | the row's tag, first rule that holds: manual exactly when an override exists, else member (only for a non-zero member), else grosir (only for member 0 with a non-empty tier list), else regular |
| Pricing.ManualPriceWins | src/hooks/useProductManagement.ts:58-60 | an override gives exactly its price, tagged manual, for any member, tiers or quantity |
| Pricing.MemberPriceRule | src/hooks/useProductManagement.ts:62-70 | for a non-zero member the price is that member's entry if one exists, else the current price; tiers and quantity never matter |
| Pricing.GrosirTierRule | src/hooks/useProductManagement.ts:70-82 | for member 0 with tiers the price is a qualifying tier with the largest min_qty; with none qualifying it reverts to the add-time price |
| Pricing.NoTiersKeepsPrice | src/hooks/useProductManagement.ts:55-56 | for member 0 with no tiers the current price is kept, tagged regular |
| Pricing.TierActivationExample | src/hooks/useProductManagement.ts:70-82 | tiers 5→90 and 10→80 over 100: quantity 4 gives 100, 5 gives 90, 12 gives 80, 3 gives 100 again |
| Pricing.ResolvedOriginIsBadge | src/pages/cashier/Cashier.tsx:316-334 | after a quantity change the row's badge names exactly the rule that priced it |
| Pricing.ClassifyOrder | src/pages/cashier/HargaCell.tsx:68-84 | exactly one tag: manual iff override; member iff no override, member ≠ 0 and a matching price; grosir iff no override, member 0 and some min_qty ≤ quantity |
| Pricing.ManualTagAlwaysWins | src/pages/cashier/HargaCell.tsx:69-71 | an override tags the row manual whatever the member, quantity, tiers or member prices |
| Pricing.BadgeText | src/pages/cashier/Cashier.tsx:358-373 | a badge is shown exactly when the tag is not regular |
| ProductManagement.SumSubTotals | src/hooks/useProductManagement.ts:111 | the sum of the line subtotals, first to last; not negative when no subtotal is |
| ProductManagement.SumAppend | src/hooks/useProductManagement.ts:111 | the total of two line lists joined is the sum of their totals |
| ProductManagement.SumReplaceOne | src/hooks/useProductManagement.ts:110-115 | replacing one line changes the total by the difference of the two subtotals |
| ProductManagement.IndexOfId | src/hooks/useProductManagement.ts:15 | finds the first line with the id, or none exactly when no line has it |
| ProductManagement.LineFor | src/hooks/useProductManagement.ts:24-33 | a fresh line from a product: quantity 1, the given unit price, subtotal = quantity × price, original_harga the catalog price, no override |
| ProductManagement.MemberPriceOnAdd | src/hooks/useProductManagement.ts:19-23 | the member's entry of the product's price list, only for a non-zero member; none exactly when the member is 0 or has no entry |
| ProductManagement.NewLine | src/hooks/useProductManagement.ts:19-47 | the line appended for a new product: quantity 1, no override, original_harga the catalog price, unit price the member's entry when there is one, else the catalog price |
| ProductManagement.LinesAfterAdd | src/hooks/useProductManagement.ts:12-49 | after an add the product is in the cart; the list grows by one exactly for a product not yet in it, and a null product changes nothing |
| ProductManagement.AddToasts | src/hooks/useProductManagement.ts:17-34 | a null product logs nothing; a new product logs at most one message, and one exactly when a member price applies |
| ProductManagement.Requantified | src/hooks/useProductManagement.ts:94-99 | the line with the new quantity, its re-resolved price and subtotal = quantity × price; id, override and original_harga kept, and an override's price kept |
| ProductManagement.QuantityToast | src/hooks/useProductManagement.ts:85-92 | at most one message; none exactly for a manual origin or a regular origin without tiers |
| ProductManagement.QuantityToasts | src/hooks/useProductManagement.ts:85-92 | at most one message per line, and none for an id not in the cart |
| ProductManagement.LinesAfterQuantity | src/hooks/useProductManagement.ts:51-103 | a quantity change keeps the number of lines |
| ProductManagement.LinesAfterQuantityPointwise | src/hooks/useProductManagement.ts:53-101 | position by position, each line with the id is re-priced at the new quantity and every other line is kept as it was |
| ProductManagement.LinesAfterRemove | src/hooks/useProductManagement.ts:106-108 | no line with the id remains, and every remaining line was in the cart |
| ProductManagement.QuantityChangeRewritesOnlyThatLine | src/hooks/useProductManagement.ts:94-101 | the changed line gets the given quantity unclamped, the resolved price and subtotal quantity × price; nothing else of it or of other lines changes |
| ProductManagement.ManualPriceSticky | src/hooks/useProductManagement.ts:58-60 | a line with a manual price keeps it through any quantity change under any member |
| ProductManagement.QuantityChangeKeepsInvariants | src/hooks/useProductManagement.ts:94-99 | a quantity change keeps ids unique and every subtotal equal to quantity × price |
| ProductManagement.QuantityChangeAbsent | src/hooks/useProductManagement.ts:52-102 | a quantity change for an id not in the cart changes nothing and raises no notification |
| ProductManagement.QuantityToastsOfLine | src/hooks/useProductManagement.ts:85-92 | with unique ids a quantity change raises exactly the changed line's notification |
| ProductManagement.GrosirToastOnEveryChange | src/hooks/useProductManagement.ts:88-89 | every change landing in a tier raises the grosir notification, even when the previous quantity was in the same tier |
| ProductManagement.ManualLineIsSilent | src/hooks/useProductManagement.ts:86-92 | a manually priced line raises no notification |
| ProductManagement.TotalAfterQuantityChange | src/hooks/useProductManagement.ts:110-115 | after a quantity change the total is the old total with that line's subtotal replaced by quantity × new price |
| ProductManagement.AddNothing | src/hooks/useProductManagement.ts:13 | adding no product leaves the cart and the notifications unchanged |
| ProductManagement.AddExistingIncrements | src/hooks/useProductManagement.ts:15-17 | adding a product already in the cart re-prices that line at its quantity + 1, in place, and leaves the others |
| ProductManagement.AddNewAppends | src/hooks/useProductManagement.ts:19-47 | a new product is appended after the existing lines with quantity 1, the catalog price as original_harga, subtotal = price, no override, and the member's price when member ≠ 0 has one, else the catalog price |
| ProductManagement.AddIgnoresTiers | src/hooks/useProductManagement.ts:38-47 | the starting price does not depend on the tier list |
| ProductManagement.NewLineBadgeMayNotMatchPrice | src/hooks/useProductManagement.ts:38-47 | for member 0, a product with a tier from quantity 1 is added at its catalog price but tagged grosir |
| ProductManagement.AddKeepsInvariants | src/hooks/useProductManagement.ts:12-49 | adding keeps ids unique and subtotals consistent |
| ProductManagement.AddToastsOfNewMemberLine | src/hooks/useProductManagement.ts:34 | adding a new product notifies exactly when a non-zero member has a price for it |
| ProductManagement.AddAllKeepsIdsUnique | src/hooks/useProductManagement.ts:15-17 | any sequence of adds yields at most one line per product id |
| ProductManagement.RemoveAbsentIsNoop | src/hooks/useProductManagement.ts:106-108 | removing an id not in the cart leaves it unchanged |
| ProductManagement.RemoveDeletesLine | src/hooks/useProductManagement.ts:107 | removing a present id deletes exactly that line and keeps the others in order |
| ProductManagement.RemoveKeepsInvariants | src/hooks/useProductManagement.ts:107 | removal keeps ids unique and subtotals consistent |
| ProductManagement.TotalAfterRemove | src/hooks/useProductManagement.ts:110-115 | removal lowers the total by that line's subtotal and the line count by one |
| ProductManagement.TotalAfterAddNew | src/hooks/useProductManagement.ts:19-47 | adding a product not yet in the cart raises the total by its starting price (one unit) and the line count by one |
| ProductManagement.Cart.constructor | src/hooks/useProductManagement.ts:7-9 | the cart starts empty with total 0 and 0 items |
| ProductManagement.Cart.RecomputeTotals | src/hooks/useProductManagement.ts:110-115 | total becomes the sum of subtotals and totalItems the number of lines, not the summed quantity |
| ProductManagement.Cart.SetProducts | src/hooks/useProductManagement.ts:7 | the list is replaced and the totals follow it; the invariant is re-established by the callers' invariant lemmas |
| ProductManagement.Cart.AddProduct | src/hooks/useProductManagement.ts:12-49 | the lines become LinesAfterAdd of the old lines and the add's notifications are logged |
| ProductManagement.Cart.AppendProduct | src/hooks/useProductManagement.ts:19-47 | a new product's line is appended, priced by the member's entry when the member is non-zero and has one (with a notification), else by the catalog price |
| ProductManagement.Cart.ChangeQuantity | src/hooks/useProductManagement.ts:51-104 | the lines become LinesAfterQuantity of the old lines and each re-priced line's notification is logged |
| ProductManagement.Cart.RemoveProduct | src/hooks/useProductManagement.ts:106-108 | the lines become LinesAfterRemove of the old lines |
| HargaSatuan.DraftValue | src/hooks/useHargaSatuan.ts:27 | the draft value is the parsed input when it is non-zero, otherwise the previous value |
| HargaSatuan.WithManualPrice | src/hooks/useHargaSatuan.ts:39-51 | each line with the id gets the override, price and subtotal quantity × price; other lines stay, in place |
| HargaSatuan.LinesAfterBlur | src/hooks/useHargaSatuan.ts:37-51 | the list keeps its length, ids and quantities; a draft that does not parse leaves it unchanged |
| HargaSatuan.CommittedPriceIsSticky | src/hooks/useHargaSatuan.ts:44-46 | after a commit the row is tagged manual and later quantity changes keep the committed price |
| HargaSatuan.CommitOfSamePriceStillOverrides | src/hooks/useHargaSatuan.ts:37-51 | blurring with the line's own price still sets the override |
| HargaSatuan.ManualPriceKeepsInvariants | src/hooks/useHargaSatuan.ts:41-47 | a commit keeps ids unique and subtotals consistent |
| HargaSatuan.TotalAfterCommit | src/hooks/useHargaSatuan.ts:46 | after a commit the total has that line's subtotal replaced by quantity × new price |
| HargaSatuan.EmptyDraftCommitsNothing | src/hooks/useHargaSatuan.ts:37-38 | an empty digit draft leaves the list unchanged; a non-empty one commits its value |
| HargaSatuan.PriceEditor.constructor | src/hooks/useHargaSatuan.ts:8-10 | no drafts at first |
| HargaSatuan.PriceEditor.Focus | src/hooks/useHargaSatuan.ts:12-21 | the id's draft becomes editing, with the current price and its text |
| HargaSatuan.PriceEditor.Change | src/hooks/useHargaSatuan.ts:23-32 | the id's draft stays editing, stores the raw input and updates its value by DraftValue from the previous value or 0 |
| HargaSatuan.PriceEditor.Blur | src/hooks/useHargaSatuan.ts:34-60 | with no editing draft nothing changes; otherwise a parseable draft is committed and the id's draft alone is deleted |
| Cashier.FindProduct | src/pages/cashier/Cashier.tsx:205-208 | the first catalog product with the option's id; none for no option or an unknown id |
| Cashier.CashierScreen.MemberSelectorDisabled | src/pages/cashier/Cashier.tsx:128 | the member selector is disabled exactly while the cart has a line |
| Cashier.CashierScreen.MinusDisabled | src/pages/cashier/Cashier.tsx:278 | a row's minus button is disabled exactly at quantity 1 or below |
| Cashier.CashierScreen.constructor | src/pages/cashier/Cashier.tsx:23-27 | member 0 "Umum", nothing selected, empty cart and drafts |
| Cashier.CashierScreen.SelectMember | src/pages/cashier/Cashier.tsx:124-128 | the member changes only while the cart is empty |
| Cashier.CashierScreen.SelectProduct | src/pages/cashier/Cashier.tsx:83-85 | the lookup result becomes the selection; the add runs only when the selection changed, and adding nothing is a no-op |
| Cashier.CashierScreen.Decrement | src/pages/cashier/Cashier.tsx:270-281 | disabled at quantity ≤ 1 (nothing changes, no notification); otherwise requests quantity − 1 and logs that change's notifications |
| Cashier.CashierScreen.Increment | src/pages/cashier/Cashier.tsx:293-303 | requests quantity + 1 and logs that change's notifications |
| Cashier.CashierScreen.EnterQuantity | src/pages/cashier/Cashier.tsx:282-292 | the typed quantity is passed on unclamped |
| Cashier.CashierScreen.FocusPrice | src/pages/cashier/Cashier.tsx:348-353 | opens a draft with the row's price |
| Cashier.CashierScreen.EnterPrice | src/pages/cashier/Cashier.tsx:344-347 | only the digits of the typed text reach the editor |
| Cashier.CashierScreen.BlurPrice | src/pages/cashier/Cashier.tsx:354 | the row's draft is committed and deleted as PriceEditor.Blur says |
| Cashier.CashierScreen.RemoveRow | src/pages/cashier/Cashier.tsx:393-400 | deletes exactly that row; total falls by its subtotal and the item count by one; no notification is logged |
| Cashier.CashierScreen.DisplayPrice | src/pages/cashier/Cashier.tsx:311-314 | shows the draft while editing, otherwise text that reads back as the row's price |
| Cashier.CashierScreen.RowBadge | src/pages/cashier/Cashier.tsx:358-373 | no badge exactly for a regular tag; a row with an override shows "Manual" |
| Cashier.CheckoutScenario | src/hooks/useProductManagement.ts:12-115 | tier 3→9000 over 10000: add gives 10000; quantity 3 gives 9000 (27000); typing 9500 gives 28500; quantity 5 keeps 9500 (47500) |
| HargaCellView.CommitOnBlur | src/pages/cashier/HargaCell.tsx:39-43 | the parent is called exactly when the draft parses and differs from the row's price, with that id and number |
| HargaCellView.UntouchedDraftCommitsNothing | src/pages/cashier/HargaCell.tsx:17-21 | a draft left as the row's own price text makes no call |
| HargaCellView.SamePriceCommitsNothing | src/pages/cashier/HargaCell.tsx:41 | the row's price typed with any leading zeros makes no call |
| HargaCellView.HargaCell.constructor | src/pages/cashier/HargaCell.tsx:17-21 | the draft starts from the row's price, not editing |
| HargaCellView.HargaCell.Focus | src/pages/cashier/HargaCell.tsx:23-28 | only the editing flag is set |
| HargaCellView.HargaCell.Change | src/pages/cashier/HargaCell.tsx:30-37 | the text is stripped to digits; the value follows it unless it reads as 0 or nothing |
| HargaCellView.HargaCell.Blur | src/pages/cashier/HargaCell.tsx:39-53 | editing always ends; the call is made as CommitOnBlur says |
| HargaCellView.HargaCell.KeyDown | src/pages/cashier/HargaCell.tsx:55-62 | Enter blurs the cell; any other key changes nothing |
| HargaCellView.HargaCell.DisplayValue | src/pages/cashier/HargaCell.tsx:64-66 | shows the draft while editing, otherwise text that reads back as the row's price |
| SalesRecord.ReceiptNo | src/pages/sales/SalesDetail.tsx:72 | "ST" then digits only; length 2 + max(5, digits of the id); ids of five or more digits appear unpadded and untruncated |
| SalesRecord.ReceiptNoRoundTrip | src/pages/sales/SalesDetail.tsx:72 | the digits after "ST" read as the id |
| SalesRecord.ParseReceiptNo | src/pages/sales/SalesDetail.tsx:72 | inverse of ReceiptNo, with no counterpart in the pages (they only format receipt numbers), used to state the round trip: accepts exactly "ST" followed by at least one digit |
| SalesRecord.ParseReceiptNoInverse | src/pages/sales/SalesDetail.tsx:72 | parsing a receipt number gives the sale id back |
| SalesRecord.ParsedReceiptNoIsCanonical | src/pages/sales/SalesDetail.tsx:72 | conversely, an accepted text is the receipt number of the id it parses to exactly when it has that receipt number's length |
| SalesRecord.ReceiptNoInjective | src/pages/sales/SalesDetail.tsx:72 | different sales have different receipt numbers |
| SalesRecord.OrElse | src/pages/sales/SalesDetail.tsx:132 | `??` picks the value when present, else the fallback |
| SalesRecord.Amount | src/pages/sales/SalesDetail.tsx:191 | a row's amount, harga × quantity: not negative for non-negative inputs, and the unit price at quantity 1 |
| SalesDetail.ReceiptOf | src/pages/sales/SalesDetail.tsx:156-194 | one line per product with amount harga × quantity; the receipt number parses back to the sale id; the stored total is shown |
| SalesDetail.KasirFallback | src/pages/sales/SalesDetail.tsx:128 | the cashier code if present, else the cashier id, whose text reads back as the id |
| SalesDetail.PembeliFallback | src/pages/sales/SalesDetail.tsx:132 | the member name if present, else "-" |
| SalesDetail.ReceiptLabel | src/pages/sales/SalesDetail.tsx:163-169 | starts with the product name, and is longer than it exactly when a non-empty unit is given |
| SalesDetail.ReceiptLabelSuffix | src/pages/sales/SalesDetail.tsx:163-169 | " [satuan]" follows the name exactly when a non-empty unit is given |
| FullInvoiceView.InvoiceOf | src/pages/sales/FullInvoiceView.tsx:246-272 | one row per product with subtotal harga × quantity; the item count equals the number of rows; the receipt number parses back to the id |
| FullInvoiceView.InvoiceKasirFallback | src/pages/sales/FullInvoiceView.tsx:199 | the cashier code if present, else the cashier name, else nothing; never the cashier id |
| FullInvoiceView.MemberFallbacks | src/pages/sales/FullInvoiceView.tsx:153-164 | member name and address each fall back to "-" on their own |
| FullInvoiceView.InvoiceLabel | src/pages/sales/FullInvoiceView.tsx:249-254 | starts with the product name and a space, and is longer than that exactly when a non-empty unit is given |
| FullInvoiceView.InvoiceLabelSuffix | src/pages/sales/FullInvoiceView.tsx:249-254 | "[satuan]" follows "name " exactly when a non-empty unit is given |
| FullInvoiceView.ViewsAgree | src/pages/sales/FullInvoiceView.tsx:259-260 | the receipt and the invoice of one sale show the same number, buyer, total and per-row quantity, price and amount |

## Left out

- Rendering (JSX, styles, the select widgets' look, the table component, buttons, layouts): no behaviour beyond what is modelled.
- The member and product fetches, the sales fetches and the authorisation header: network I/O. The catalog and the sale record are inputs.
- The debounced fuzzy product search: it depends on timers and a foreign matching library. The picker's option list is the catalog.
- The toast display and its timers. Only the message texts are logged; the "info" level is not kept.
- Currency, date and time formatting (`toLocaleString`, `new Date`): locale library. Amounts stay integers.
- `parseFloat` on arbitrary text: signs, decimal points, exponents and leading blanks are not modelled. The core only passes digit strings, for which the model agrees with JavaScript below 2^53.
- Double-precision arithmetic: JavaScript numbers are IEEE doubles, the model's are unbounded integers. `parseFloat` rounds digit runs above 2^53, `String(n)` writes ids from 1e21 on in exponent form (so the receipt number would read like "ST1e+21"), and sums and products of subtotals above 2^53 round. The model is exact only below 2^53.
- Fractional and NaN quantities from the number input: quantities are integers.
- A null selected member: the selector cannot be cleared. It would behave like a non-zero member with no prices.
- Product objects are compared by value where the code compares references when deciding whether the selection changed. The two agree because the lookup always returns the first catalog entry with the id.
- Negative sale ids: ids are naturals, so the receipt number of a negative id is not modelled.
- `handleSaveReceipt`: it only logs the cart.
- The stand-alone quantity cell, the dummy product data and the older sales types: not used by the cashier screen.
- Theme, sidebar and admin-mode contexts: UI toggles.
- React batching and the moment at which the totals effect runs: each handler is one sequential step ending with the totals recomputed.
