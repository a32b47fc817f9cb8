/** The printable 80 mm receipt of one sale. */
module SalesDetail {
  import opened Wrappers
  import opened Decimal
  import opened SalesRecord

  datatype ReceiptLine = ReceiptLine(productLabel: string, quantity: int, harga: int, amount: int)

  datatype Receipt = Receipt(kasir: string, pembeli: string, receiptNo: string, lines: seq<ReceiptLine>, total: int)

  /** Product name, then " [satuan]" when a unit is given. */
  function ReceiptLabel(p: PrintProduct): (r: string)
    ensures |r| >= |p.productName| && r[..|p.productName|] == p.productName
    ensures |r| == |p.productName| <==> !Shown(p.productSatuan)
  {
    p.productName + if Shown(p.productSatuan) then " [" + p.productSatuan.value + "]" else ""
  }

  function ReceiptLineOf(p: PrintProduct): ReceiptLine
  {
    ReceiptLine(ReceiptLabel(p), p.quantity, p.harga, Amount(p))
  }

  /**
   * The receipt: cashier code or else the cashier id, buyer name or else "-",
   * the receipt number, one line per product and the stored total.
   */
  function ReceiptOf(sale: PrintSales): (r: Receipt)
    ensures |r.lines| == |sale.products|
    ensures forall i :: 0 <= i < |r.lines| ==>
              r.lines[i].amount == sale.products[i].harga * sale.products[i].quantity &&
              r.lines[i].quantity == sale.products[i].quantity && r.lines[i].harga == sale.products[i].harga
    ensures ParseReceiptNo(r.receiptNo) == Some(sale.id)
    ensures r.total == sale.total
  {
    ParseReceiptNoInverse(sale.id);
    Receipt(
      OrElse(sale.kodeKasir, DecimalString(sale.kasirId)),
      OrElse(sale.memberName, "-"),
      ReceiptNo(sale.id),
      seq(|sale.products|, i requires 0 <= i < |sale.products| => ReceiptLineOf(sale.products[i])),
      sale.total)
  }

  /** Without a cashier code the receipt shows the cashier id, which reads back as that id. */
  lemma KasirFallback(sale: PrintSales)
    ensures sale.kodeKasir.Some? ==> ReceiptOf(sale).kasir == sale.kodeKasir.value
    ensures sale.kodeKasir.None? ==> ParseNumber(ReceiptOf(sale).kasir) == Some(sale.kasirId)
  {
    ParseDecimalString(sale.kasirId);
  }

  /** The buyer is the member name, or "-" without one. */
  lemma PembeliFallback(sale: PrintSales)
    ensures ReceiptOf(sale).pembeli == if sale.memberName.Some? then sale.memberName.value else "-"
  {
  }

  /** A unit suffix appears exactly when the unit is present and non-empty. */
  lemma ReceiptLabelSuffix(p: PrintProduct)
    ensures Shown(p.productSatuan) ==> ReceiptLabel(p) == p.productName + " [" + p.productSatuan.value + "]"
    ensures !Shown(p.productSatuan) ==> ReceiptLabel(p) == p.productName
  {
  }
}
