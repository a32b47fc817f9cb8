/** The full-page invoice of one sale. */
module FullInvoiceView {
  import opened Wrappers
  import opened SalesRecord
  import SalesDetail

  datatype InvoiceRow = InvoiceRow(productLabel: string, quantity: int, harga: int, subtotal: int)

  datatype Invoice = Invoice(
    pembeli: string,
    alamat: string,
    kasir: string,
    receiptNo: string,
    rows: seq<InvoiceRow>,
    itemCount: nat,
    total: int)

  /** Product name and a space, then "[satuan]" when a unit is given. */
  function InvoiceLabel(p: PrintProduct): (r: string)
    ensures |r| > |p.productName| && r[..|p.productName| + 1] == p.productName + " "
    ensures |r| == |p.productName| + 1 <==> !Shown(p.productSatuan)
  {
    p.productName + " " + if Shown(p.productSatuan) then "[" + p.productSatuan.value + "]" else ""
  }

  function InvoiceRowOf(p: PrintProduct): InvoiceRow
  {
    InvoiceRow(InvoiceLabel(p), p.quantity, p.harga, Amount(p))
  }

  /**
   * The invoice: member name and address or else "-", cashier code or else
   * cashier name (nothing when neither is given), the receipt number, one
   * row per product, the row count and the stored total.
   */
  function InvoiceOf(sale: PrintSales): (r: Invoice)
    ensures |r.rows| == |sale.products| && r.itemCount == |r.rows|
    ensures forall i :: 0 <= i < |r.rows| ==>
              r.rows[i].subtotal == sale.products[i].harga * sale.products[i].quantity &&
              r.rows[i].quantity == sale.products[i].quantity && r.rows[i].harga == sale.products[i].harga
    ensures ParseReceiptNo(r.receiptNo) == Some(sale.id)
    ensures r.total == sale.total
  {
    ParseReceiptNoInverse(sale.id);
    Invoice(
      OrElse(sale.memberName, "-"),
      OrElse(sale.memberAddress, "-"),
      OrElse(sale.kodeKasir, OrElse(sale.kasirName, "")),
      ReceiptNo(sale.id),
      seq(|sale.products|, i requires 0 <= i < |sale.products| => InvoiceRowOf(sale.products[i])),
      |sale.products|,
      sale.total)
  }

  /** The cashier is the code, else the name; the invoice never falls back to the cashier id. */
  lemma InvoiceKasirFallback(sale: PrintSales)
    ensures sale.kodeKasir.Some? ==> InvoiceOf(sale).kasir == sale.kodeKasir.value
    ensures sale.kodeKasir.None? && sale.kasirName.Some? ==> InvoiceOf(sale).kasir == sale.kasirName.value
    ensures sale.kodeKasir.None? && sale.kasirName.None? ==> InvoiceOf(sale).kasir == ""
  {
  }

  /** Member name and address each fall back to "-" on their own. */
  lemma MemberFallbacks(sale: PrintSales)
    ensures InvoiceOf(sale).pembeli == if sale.memberName.Some? then sale.memberName.value else "-"
    ensures InvoiceOf(sale).alamat == if sale.memberAddress.Some? then sale.memberAddress.value else "-"
  {
  }

  lemma InvoiceLabelSuffix(p: PrintProduct)
    ensures Shown(p.productSatuan) ==> InvoiceLabel(p) == p.productName + " [" + p.productSatuan.value + "]"
    ensures !Shown(p.productSatuan) ==> InvoiceLabel(p) == p.productName + " "
  {
  }

  /**
   * The receipt and the invoice of one sale agree: same receipt number, same
   * buyer, same quantities, prices and amounts row by row, same total.
   */
  lemma ViewsAgree(sale: PrintSales)
    ensures var r := SalesDetail.ReceiptOf(sale);
            var v := InvoiceOf(sale);
            r.receiptNo == v.receiptNo && r.pembeli == v.pembeli && r.total == v.total &&
            |r.lines| == |v.rows| &&
            forall i :: 0 <= i < |v.rows| ==>
              r.lines[i].amount == v.rows[i].subtotal && r.lines[i].quantity == v.rows[i].quantity &&
              r.lines[i].harga == v.rows[i].harga
  {
  }
}
