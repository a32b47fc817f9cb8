/**
 * The cashier screen: the selected member (walk-in "Umum" by default, locked
 * once the cart has a line), product selection by id from the catalog, the
 * per-row quantity buttons and input, the sanitised unit-price input and the
 * price-origin badge of each row.
 */
module Cashier {
  import opened Wrappers
  import opened Decimal
  import opened Catalog
  import opened Pricing
  import opened ProductManagement
  import opened HargaSatuan

  /** The member selected when the screen opens. */
  const Umum := MemberOption(0, "Umum")

  /** The first catalog entry whose id is the picked option's value; none when nothing is picked. */
  function FindProduct(catalog: seq<Product>, optionValue: Option<int>): (r: Option<Product>)
    ensures r.None? <==> optionValue.None? || forall p :: p in catalog ==> p.id != optionValue.value
    ensures r.Some? ==> optionValue == Some(r.value.id) &&
                        exists i :: 0 <= i < |catalog| && catalog[i] == r.value &&
                                    forall j :: 0 <= j < i ==> catalog[j].id != r.value.id
    decreases |catalog|
  {
    if optionValue.None? || catalog == [] then None
    else if catalog[0].id == optionValue.value then Some(catalog[0])
    else
      var r := FindProduct(catalog[1..], optionValue);
      assert forall p :: p in catalog ==> p == catalog[0] || p in catalog[1..];
      assert r.Some? ==> (exists i :: 0 <= i < |catalog| && catalog[i] == r.value &&
                                      forall j :: 0 <= j < i ==> catalog[j].id != r.value.id) by {
        if r.Some? {
          var i :| 0 <= i < |catalog[1..]| && catalog[1..][i] == r.value &&
                   forall j :: 0 <= j < i ==> catalog[1..][j].id != r.value.id;
          assert catalog[i + 1] == r.value;
          assert forall j :: 0 < j < i + 1 ==> catalog[j] == catalog[1..][j - 1];
        }
      }
      r
  }

  class CashierScreen {
    /** The products the picker offers. */
    const catalog: seq<Product>
    var selectedProduct: Option<Product>
    var selectedMember: MemberOption
    const cart: Cart
    const editor: PriceEditor

    /**
     * The cart's totals follow its lines, ids are unique, every subtotal is
     * quantity times price, and every draft holds digits only.
     */
    ghost predicate Valid()
      reads this, cart, editor
    {
      cart.Valid() &&
      forall id :: id in editor.states ==> IsDigits(editor.states[id].inputValue)
    }

    constructor (catalog: seq<Product>)
      ensures Valid() && fresh(cart) && fresh(editor)
      ensures this.catalog == catalog && selectedProduct == None && selectedMember == Umum
      ensures cart.lines == [] && cart.toasts == [] && editor.states == map[]
    {
      this.catalog := catalog;
      selectedProduct := None;
      selectedMember := Umum;
      cart := new Cart();
      editor := new PriceEditor();
    }

    /** The member selector is disabled while the cart has a line. */
    predicate MemberSelectorDisabled()
      reads this, cart
    {
      |cart.lines| > 0
    }

    method SelectMember(option: MemberOption)
      requires Valid()
      modifies this
      ensures Valid()
      ensures selectedMember == if MemberSelectorDisabled() then old(selectedMember) else option
      ensures selectedProduct == old(selectedProduct)
    {
      if !MemberSelectorDisabled() {
        selectedMember := option;
      }
    }

    /**
     * Picking an option looks the product up by id; the add runs only when
     * the selection actually changes (the effect depends on the selected
     * product), and adding nothing is a no-op.
     */
    method SelectProduct(optionValue: Option<int>)
      requires Valid()
      modifies this, cart
      ensures Valid()
      ensures selectedProduct == FindProduct(catalog, optionValue) && selectedMember == old(selectedMember)
      ensures selectedProduct != old(selectedProduct) ==>
                cart.lines == LinesAfterAdd(old(cart.lines), selectedProduct, selectedMember.value) &&
                cart.toasts == old(cart.toasts) + AddToasts(old(cart.lines), selectedProduct, selectedMember.value)
      ensures selectedProduct == old(selectedProduct) ==> cart.lines == old(cart.lines) && cart.toasts == old(cart.toasts)
    {
      var product := FindProduct(catalog, optionValue);
      if product != selectedProduct {
        selectedProduct := product;
        cart.AddProduct(product, selectedMember.value);
      }
    }

    /** The minus button of a row is disabled at quantity 1 or below. */
    predicate MinusDisabled(row: nat)
      requires row < |cart.lines|
      reads this, cart
    {
      cart.lines[row].quantity <= 1
    }

    method Decrement(row: nat)
      requires Valid() && row < |cart.lines|
      modifies cart
      ensures Valid()
      ensures old(MinusDisabled(row)) ==> cart.lines == old(cart.lines) && cart.toasts == old(cart.toasts)
      ensures !old(MinusDisabled(row)) ==>
                cart.lines == LinesAfterQuantity(old(cart.lines), old(cart.lines[row].id), old(cart.lines[row].quantity) - 1,
                                                 selectedMember.value) &&
                cart.toasts == old(cart.toasts) + QuantityToasts(old(cart.lines), old(cart.lines[row].id),
                                                                 old(cart.lines[row].quantity) - 1, selectedMember.value)
    {
      if !MinusDisabled(row) {
        EnterQuantity(row, cart.lines[row].quantity - 1);
      }
    }

    method Increment(row: nat)
      requires Valid() && row < |cart.lines|
      modifies cart
      ensures Valid()
      ensures cart.lines == LinesAfterQuantity(old(cart.lines), old(cart.lines[row].id), old(cart.lines[row].quantity) + 1,
                                               selectedMember.value)
      ensures cart.toasts == old(cart.toasts) + QuantityToasts(old(cart.lines), old(cart.lines[row].id),
                                                               old(cart.lines[row].quantity) + 1, selectedMember.value)
    {
      EnterQuantity(row, cart.lines[row].quantity + 1);
    }

    /** The quantity input passes the typed number on as it is, without clamping. */
    method EnterQuantity(row: nat, quantity: int)
      requires Valid() && row < |cart.lines|
      modifies cart
      ensures Valid()
      ensures cart.lines == LinesAfterQuantity(old(cart.lines), old(cart.lines[row].id), quantity, selectedMember.value)
      ensures cart.toasts == old(cart.toasts) + QuantityToasts(old(cart.lines), old(cart.lines[row].id), quantity, selectedMember.value)
    {
      cart.ChangeQuantity(cart.lines[row].id, quantity, selectedMember.value);
    }

    method FocusPrice(row: nat)
      requires Valid() && row < |cart.lines|
      modifies editor
      ensures Valid()
      ensures var line := cart.lines[row];
              editor.states == old(editor.states)[line.id := DraftState(line.harga, true, DecimalString(line.harga))]
    {
      editor.Focus(cart.lines[row].id, cart.lines[row].harga);
    }

    /** Only the digits of what is typed reach the editor. */
    method EnterPrice(row: nat, typed: string)
      requires Valid() && row < |cart.lines|
      modifies editor
      ensures Valid()
      ensures var id := cart.lines[row].id;
              editor.states == old(editor.states)[id := DraftState(
                DraftValue(KeepDigits(typed), if id in old(editor.states) then old(editor.states)[id].value else 0),
                true, KeepDigits(typed))]
    {
      editor.Change(cart.lines[row].id, KeepDigits(typed));
    }

    method BlurPrice(row: nat)
      requires Valid() && row < |cart.lines|
      modifies editor, cart
      ensures Valid() && cart.toasts == old(cart.toasts)
      ensures var id := old(cart.lines[row].id);
              if id in old(editor.states) && old(editor.states)[id].isEditing
              then editor.states == old(editor.states) - {id} &&
                   cart.lines == LinesAfterBlur(old(cart.lines), id, old(editor.states)[id].inputValue)
              else editor.states == old(editor.states) && cart.lines == old(cart.lines)
    {
      var id := cart.lines[row].id;
      editor.Blur(id, cart);
    }

    method RemoveRow(row: nat)
      requires Valid() && row < |cart.lines|
      modifies cart
      ensures Valid()
      ensures cart.lines == old(cart.lines[..row] + cart.lines[row + 1..])
      ensures cart.total == old(cart.total - cart.lines[row].subTotal) && cart.totalItems == old(cart.totalItems) - 1
      ensures cart.toasts == old(cart.toasts)
    {
      var id := cart.lines[row].id;
      RemoveDeletesLine(cart.lines, id, row);
      TotalAfterRemove(cart.lines, id, row);
      cart.RemoveProduct(id);
    }

    /**
     * The price cell shows the draft while it is being edited and otherwise
     * the line's price, which then reads back as that price.
     */
    function DisplayPrice(row: nat): (s: string)
      requires Valid() && row < |cart.lines|
      reads this, cart, editor
      ensures var id := cart.lines[row].id;
              (id in editor.states && editor.states[id].isEditing ==> s == editor.states[id].inputValue) &&
              (!(id in editor.states && editor.states[id].isEditing) ==> ParseNumber(s) == Some(cart.lines[row].harga))
      ensures IsDigits(s)
    {
      var id := cart.lines[row].id;
      ParseDecimalString(cart.lines[row].harga);
      if id in editor.states && editor.states[id].isEditing then editor.states[id].inputValue
      else DecimalString(cart.lines[row].harga)
    }

    /** The origin badge of a row under the selected member; none for a regular price. */
    function RowBadge(row: nat): (b: Option<string>)
      requires row < |cart.lines|
      ensures b.None? <==> Classify(cart.lines[row], selectedMember.value) == Regular
      ensures cart.lines[row].manualHargaSatuan.Some? ==> b == Some("Manual")
      reads this, cart
    {
      BadgeText(Classify(cart.lines[row], selectedMember.value))
    }
  }

  /**
   * Walk-in buyer, product at 10000 with a tier of 9000 from 3 units: add,
   * set quantity 3, type 9500 into the price, set quantity 5.
   */
  lemma CheckoutScenario(a: Product)
    requires a.harga == 10000 && a.hargaGrosir == [GrosirConfig(3, 9000)]
    ensures var l1 := LinesAfterAdd([], Some(a), 0);
            var l2 := LinesAfterQuantity(l1, a.id, 3, 0);
            var l3 := LinesAfterBlur(l2, a.id, "9500");
            var l4 := LinesAfterQuantity(l3, a.id, 5, 0);
            |l1| == 1 && l1[0].quantity == 1 && l1[0].harga == 10000 && SumSubTotals(l1) == 10000 &&
            l2[0].harga == 9000 && SumSubTotals(l2) == 27000 &&
            l3[0].harga == 9500 && SumSubTotals(l3) == 28500 &&
            l4[0].harga == 9500 && SumSubTotals(l4) == 47500
  {
    var l1 := LinesAfterAdd([], Some(a), 0);
    assert l1 == [LineFor(a, 10000)];
    SumOfOne(l1[0]);
    var l2 := LinesAfterQuantity(l1, a.id, 3, 0);
    ScenarioTierApplies(a, l1[0]);
    SumOfOne(l2[0]);
    var l3 := LinesAfterBlur(l2, a.id, "9500");
    ScenarioPriceCommitted(l2[0]);
    SumOfOne(l3[0]);
    var l4 := LinesAfterQuantity(l3, a.id, 5, 0);
    ScenarioManualPriceKept(l3[0]);
    SumOfOne(l4[0]);
  }

  /** Second step of the scenario: at quantity 3 the tier's 9000 applies. */
  lemma ScenarioTierApplies(a: Product, l: Line)
    requires a.hargaGrosir == [GrosirConfig(3, 9000)] && l == LineFor(a, 10000)
    ensures LinesAfterQuantity([l], a.id, 3, 0) == [l.(quantity := 3, harga := 9000, subTotal := 27000)]
  {
    BestTierUnique(a.hargaGrosir, 3, 0);
    LinesAfterQuantityPointwise([l], a.id, 3, 0);
  }

  /** Third step of the scenario: typing 9500 and leaving the input pins that price. */
  lemma ScenarioPriceCommitted(l: Line)
    ensures LinesAfterBlur([l], l.id, "9500") ==
            [l.(manualHargaSatuan := Some(9500), harga := 9500, subTotal := l.quantity * 9500)]
  {
    var s := "9500";
    assert IsDigits(s);
    assert DigitsValue("9") == 9 by { assert "9"[..0] == ""; }
    assert DigitsValue("95") == 95 by { assert "95"[..1] == "9"; }
    assert DigitsValue("950") == 950 by { assert "950"[..2] == "95"; }
    assert DigitsValue(s) == 9500 by { assert s[..3] == "950"; }
  }

  /** Last step of the scenario: at quantity 5 the manual 9500 stays. */
  lemma ScenarioManualPriceKept(l: Line)
    requires l.manualHargaSatuan == Some(9500)
    ensures LinesAfterQuantity([l], l.id, 5, 0) == [l.(quantity := 5, harga := 9500, subTotal := 47500)]
  {
    LinesAfterQuantityPointwise([l], l.id, 5, 0);
  }

  /** The total of a one-line cart is that line's subtotal. */
  lemma SumOfOne(l: Line)
    ensures SumSubTotals([l]) == l.subTotal
  {
    assert [l][..0] == [];
  }
}
