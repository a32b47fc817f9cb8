/**
 * A saved sale as the sales pages fetch it, and its receipt number: "ST"
 * followed by the sale id left-padded with zeros to five digits.
 */
module SalesRecord {
  import opened Wrappers
  import opened Decimal

  datatype PrintProduct = PrintProduct(
    productId: int,
    productName: string,
    productSatuan: Option<string>,
    harga: int,
    quantity: int)

  /** The fields both sales pages read; `kasirName` and `memberAddress` only the invoice uses. */
  datatype PrintSales = PrintSales(
    id: nat,
    kasirId: nat,
    kodeKasir: Option<string>,
    kasirName: Option<string>,
    memberId: int,
    memberName: Option<string>,
    memberAddress: Option<string>,
    dateAdded: string,
    total: int,
    products: seq<PrintProduct>)

  /** "ST" followed by the id in decimal, left-padded with zeros to five digits. */
  function ReceiptNo(id: nat): (r: string)
    ensures |r| == 2 + (if |DecimalString(id)| >= 5 then |DecimalString(id)| else 5)
    ensures r[..2] == "ST" && IsDigits(r[2..])
    ensures |DecimalString(id)| >= 5 ==> r[2..] == DecimalString(id)
  {
    "ST" + PadStart(DecimalString(id), 5, '0')
  }

  /** Reading the digits after "ST" gives the sale id back. */
  lemma ReceiptNoRoundTrip(id: nat)
    ensures DigitsValue(ReceiptNo(id)[2..]) == id
  {
    var d := DecimalString(id);
    var p := PadStart(d, 5, '0');
    assert ReceiptNo(id)[2..] == p;
    var z := p[..|p| - |d|];
    assert p == z + d;
    LeadingZerosValue(z, d);
    DecimalStringValue(id);
  }

  /**
   * The inverse of ReceiptNo, used to state its round trip (the pages only
   * format receipt numbers): "ST" and at least one digit, read as a number.
   */
  function ParseReceiptNo(r: string): (id: Option<nat>)
    ensures id.Some? <==> |r| > 2 && r[..2] == "ST" && IsDigits(r[2..])
  {
    if |r| > 2 && r[..2] == "ST" && IsDigits(r[2..]) then Some(DigitsValue(r[2..])) else None
  }

  lemma ParseReceiptNoInverse(id: nat)
    ensures ParseReceiptNo(ReceiptNo(id)) == Some(id)
  {
    ReceiptNoRoundTrip(id);
  }

  /**
   * Conversely, a parsed receipt number is the one ReceiptNo writes for its id
   * exactly when it has that length (no extra leading zeros).
   */
  lemma ParsedReceiptNoIsCanonical(r: string, id: nat)
    requires ParseReceiptNo(r) == Some(id)
    ensures ReceiptNo(id) == r <==> |r| == |ReceiptNo(id)|
  {
    var w := ReceiptNo(id);
    if |r| == |w| {
      ReceiptNoRoundTrip(id);
      DigitsValueInjective(r[2..], w[2..]);
      assert r == r[..2] + r[2..] && w == w[..2] + w[2..];
    }
  }

  /** Distinct sales never share a receipt number. */
  lemma ReceiptNoInjective(a: nat, b: nat)
    requires ReceiptNo(a) == ReceiptNo(b)
    ensures a == b
  {
    ReceiptNoRoundTrip(a);
    ReceiptNoRoundTrip(b);
  }

  /** A product row's amount, `harga * quantity`. */
  function Amount(p: PrintProduct): (a: int)
    ensures p.harga >= 0 && p.quantity >= 0 ==> a >= 0
    ensures p.quantity == 1 ==> a == p.harga
  {
    p.harga * p.quantity
  }

  /** The text when present, otherwise the fallback. */
  function OrElse(x: Option<string>, fallback: string): (r: string)
    ensures x.Some? ==> r == x.value
    ensures x.None? ==> r == fallback
  {
    match x
    case Some(v) => v
    case None => fallback
  }

  /** A text is rendered only when it is present and non-empty. */
  predicate Shown(x: Option<string>)
  {
    x.Some? && x.value != ""
  }
}
