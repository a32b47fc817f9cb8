/**
 * The records the cashier works on: the catalog's product with its member
 * prices and wholesale ("grosir") tiers, the sale line built from it, the
 * member choice and the draft state of a unit-price input.
 * Prices are whole Rupiah.
 */
module Catalog {
  import opened Wrappers

  /** A price reserved for one member id. */
  datatype MemberPrice = MemberPrice(memberId: int, memberName: string, harga: nat)

  /** A wholesale tier: from `minQty` units on, the unit price is `harga`. */
  datatype GrosirConfig = GrosirConfig(minQty: int, harga: nat)

  /**
   * A catalog product. Its member prices and wholesale tiers may be absent
   * from a product record; an absent list behaves exactly like an empty one,
   * so both are sequences that may be empty.
   */
  datatype Product = Product(
    id: int,
    name: string,
    satuan: string,
    harga: nat,
    modal: int,
    expired: string,
    barcode: string,
    note: string,
    memberPrices: seq<MemberPrice>,
    hargaGrosir: seq<GrosirConfig>)

  /**
   * A sale line: the product's fields plus the cart's own. `harga` is the unit
   * price in force, `originalHarga` the catalog price taken when the line was
   * added, `manualHargaSatuan` a unit price the cashier typed in.
   */
  datatype Line = Line(
    id: int,
    name: string,
    satuan: string,
    modal: int,
    expired: string,
    barcode: string,
    note: string,
    memberPrices: seq<MemberPrice>,
    hargaGrosir: seq<GrosirConfig>,
    quantity: int,
    harga: nat,
    originalHarga: nat,
    subTotal: int,
    manualHargaSatuan: Option<nat>)

  /** An entry of the member selector; value 0 is the walk-in buyer "Umum". */
  datatype MemberOption = MemberOption(value: int, labelText: string)

  /** Draft of a unit-price input while the cashier types in it. */
  datatype DraftState = DraftState(value: int, isEditing: bool, inputValue: string)
}
