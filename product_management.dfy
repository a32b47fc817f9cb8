/**
 * The cart behind the cashier screen: an ordered list of sale lines, at most
 * one per product id, with add, quantity change and removal, and the grand
 * total and line count recomputed after every change.
 */
module ProductManagement {
  import opened Wrappers
  import opened Catalog
  import opened Pricing

  // ---- Cart invariants ----

  /** At most one line per product id. */
  predicate UniqueIds(lines: seq<Line>)
  {
    forall i, j :: 0 <= i < j < |lines| ==> lines[i].id != lines[j].id
  }

  /** Every line's subtotal is its quantity times its unit price. */
  predicate SubTotalsConsistent(lines: seq<Line>)
  {
    forall i :: 0 <= i < |lines| ==> lines[i].subTotal == lines[i].quantity * lines[i].harga
  }

  predicate Contains(lines: seq<Line>, id: int)
  {
    exists i :: 0 <= i < |lines| && lines[i].id == id
  }

  /** The sum of the line subtotals, added up from the first line to the last. */
  function SumSubTotals(lines: seq<Line>): (r: int)
    ensures (forall i :: 0 <= i < |lines| ==> lines[i].subTotal >= 0) ==> r >= 0
    decreases |lines|
  {
    if lines == [] then 0 else SumSubTotals(lines[..|lines| - 1]) + lines[|lines| - 1].subTotal
  }

  lemma {:induction false} SumAppend(a: seq<Line>, b: seq<Line>)
    ensures SumSubTotals(a + b) == SumSubTotals(a) + SumSubTotals(b)
    decreases |b|
  {
    if b == [] {
      assert a + b == a;
    } else {
      assert (a + b)[..|a + b| - 1] == a + b[..|b| - 1];
      SumAppend(a, b[..|b| - 1]);
    }
  }

  /** Replacing one line changes the total by the difference of the two subtotals. */
  lemma {:induction false} SumReplaceOne(a: seq<Line>, b: seq<Line>, i: nat)
    requires |a| == |b| && i < |a|
    requires forall j :: 0 <= j < |a| && j != i ==> a[j] == b[j]
    ensures SumSubTotals(b) == SumSubTotals(a) - a[i].subTotal + b[i].subTotal
    decreases |a|
  {
    var n := |a|;
    if i == n - 1 {
      assert a[..n - 1] == b[..n - 1];
    } else {
      SumReplaceOne(a[..n - 1], b[..n - 1], i);
    }
  }

  /** The position of the first line with the id. */
  function IndexOfId(lines: seq<Line>, id: int): (r: Option<nat>)
    ensures r.None? <==> !Contains(lines, id)
    ensures r.Some? ==> r.value < |lines| && lines[r.value].id == id &&
                        forall j :: 0 <= j < r.value ==> lines[j].id != id
    decreases |lines|
  {
    if lines == [] then None
    else if lines[0].id == id then Some(0)
    else
      match IndexOfId(lines[1..], id)
      case None =>
        assert forall j :: 0 < j < |lines| ==> lines[j] == lines[1..][j - 1];
        None
      case Some(k) =>
        assert forall j :: 0 < j <= k ==> lines[j] == lines[1..][j - 1];
        Some(k + 1)
  }

  // ---- Adding a product ----

  /** A fresh line for a product at quantity 1 and unit price `harga`. */
  function LineFor(p: Product, harga: nat): (r: Line)
    ensures r.id == p.id && r.name == p.name && r.memberPrices == p.memberPrices && r.hargaGrosir == p.hargaGrosir
    ensures r.quantity == 1 && r.harga == harga && r.subTotal == r.quantity * r.harga
    ensures r.originalHarga == p.harga && r.manualHargaSatuan.None?
  {
    Line(p.id, p.name, p.satuan, p.modal, p.expired, p.barcode, p.note, p.memberPrices, p.hargaGrosir,
         1, harga, p.harga, harga, None)
  }

  /** The member price a new line starts with: only for a non-zero member. */
  function MemberPriceOnAdd(p: Product, member: int): (r: Option<MemberPrice>)
    ensures r.None? <==> member == 0 || forall mp :: mp in p.memberPrices ==> mp.memberId != member
    ensures r.Some? ==> r.value in p.memberPrices && r.value.memberId == member
  {
    if member != 0 then FindMemberPrice(p.memberPrices, member) else None
  }

  /** The line appended for a product not yet in the cart; wholesale tiers are not consulted. */
  function NewLine(p: Product, member: int): (r: Line)
    ensures r.id == p.id && r.quantity == 1 && r.subTotal == r.harga
    ensures r.originalHarga == p.harga && r.manualHargaSatuan.None?
    ensures r.harga == if MemberPriceOnAdd(p, member).Some? then MemberPriceOnAdd(p, member).value.harga else p.harga
  {
    match MemberPriceOnAdd(p, member)
    case Some(mp) => LineFor(p, mp.harga)
    case None => LineFor(p, p.harga)
  }

  /** The list after an add: the product's line is re-priced at one more, or a new line is appended. */
  function LinesAfterAdd(lines: seq<Line>, product: Option<Product>, member: int): (r: seq<Line>)
    ensures product.None? ==> r == lines
    ensures product.Some? ==> Contains(r, product.value.id)
    ensures |r| == if product.Some? && !Contains(lines, product.value.id) then |lines| + 1 else |lines|
  {
    match product
    case None => lines
    case Some(p) =>
      match IndexOfId(lines, p.id)
      case Some(i) =>
        LinesAfterQuantityPointwise(lines, p.id, lines[i].quantity + 1, member);
        LinesAfterQuantity(lines, p.id, lines[i].quantity + 1, member)
      case None =>
        assert (lines + [NewLine(p, member)])[|lines|].id == p.id;
        lines + [NewLine(p, member)]
  }

  /** Notifications of an add: those of the quantity change, or one for a member price. */
  function AddToasts(lines: seq<Line>, product: Option<Product>, member: int): (r: seq<string>)
    ensures product.None? ==> r == []
    ensures product.Some? && !Contains(lines, product.value.id) ==>
              |r| <= 1 && (r != [] <==> MemberPriceOnAdd(product.value, member).Some?)
  {
    match product
    case None => []
    case Some(p) =>
      match IndexOfId(lines, p.id)
      case Some(i) => QuantityToasts(lines, p.id, lines[i].quantity + 1, member)
      case None => if MemberPriceOnAdd(p, member).Some? then ["Using member price for " + p.name] else []
  }

  // ---- Changing a quantity ----

  /** The line with its quantity set and its unit price re-resolved. */
  function Requantified(line: Line, member: int, quantity: int): (r: Line)
    ensures r.id == line.id && r.quantity == quantity && r.subTotal == r.quantity * r.harga
    ensures r.manualHargaSatuan == line.manualHargaSatuan && r.originalHarga == line.originalHarga
    ensures line.manualHargaSatuan.Some? ==> r.harga == line.manualHargaSatuan.value
  {
    var r := ResolvePrice(line, member, quantity);
    line.(quantity := quantity, harga := r.harga, subTotal := quantity * r.harga)
  }

  function LinesAfterQuantity(lines: seq<Line>, id: int, quantity: int, member: int): (r: seq<Line>)
    ensures |r| == |lines|
    decreases |lines|
  {
    if lines == [] then []
    else [if lines[0].id == id then Requantified(lines[0], member, quantity) else lines[0]]
         + LinesAfterQuantity(lines[1..], id, quantity, member)
  }

  /** The notification a re-priced line raises, whatever its previous origin. */
  function QuantityToast(line: Line, origin: PriceType): (r: seq<string>)
    ensures |r| <= 1
    ensures r == [] <==> origin == Manual || (origin == Regular && |line.hargaGrosir| == 0)
  {
    if origin == Member then ["Using member price for " + line.name]
    else if origin == Grosir then ["Using grosir price for " + line.name]
    else if origin == Regular && |line.hargaGrosir| > 0 then ["Using regular price for " + line.name]
    else assert origin.Manual? || origin.Regular?; []
  }

  /** The notifications of a quantity change: one per re-priced line at most, none for an unknown id. */
  function QuantityToasts(lines: seq<Line>, id: int, quantity: int, member: int): (r: seq<string>)
    ensures |r| <= |lines|
    ensures !Contains(lines, id) ==> r == []
    decreases |lines|
  {
    if lines == [] then []
    else (if lines[0].id == id then QuantityToast(lines[0], ResolvePrice(lines[0], member, quantity).origin) else [])
         + QuantityToasts(lines[1..], id, quantity, member)
  }

  // ---- Removing a line ----

  /** The lines whose id differs from `id`, in their order. */
  function LinesAfterRemove(lines: seq<Line>, id: int): (r: seq<Line>)
    ensures |r| <= |lines|
    ensures !Contains(r, id)
    ensures forall l :: l in r ==> l in lines
    decreases |lines|
  {
    if lines == [] then []
    else (if lines[0].id == id then [] else [lines[0]]) + LinesAfterRemove(lines[1..], id)
  }

  // ---- Properties of a quantity change ----

  /** Position by position, a quantity change re-prices the lines with the id and keeps the rest. */
  lemma {:induction false} LinesAfterQuantityPointwise(lines: seq<Line>, id: int, quantity: int, member: int)
    ensures forall i :: 0 <= i < |lines| ==>
              LinesAfterQuantity(lines, id, quantity, member)[i] ==
              if lines[i].id == id then Requantified(lines[i], member, quantity) else lines[i]
    decreases |lines|
  {
    if lines != [] {
      var rest := LinesAfterQuantity(lines[1..], id, quantity, member);
      LinesAfterQuantityPointwise(lines[1..], id, quantity, member);
      var r := LinesAfterQuantity(lines, id, quantity, member);
      assert forall i :: 0 < i < |lines| ==> r[i] == rest[i - 1] && lines[i] == lines[1..][i - 1];
    }
  }

  /**
   * A quantity change rewrites only the lines with that id: the quantity is
   * set unclamped, the unit price re-resolved, the subtotal recomputed; order
   * and every other line stay as they were.
   */
  lemma QuantityChangeRewritesOnlyThatLine(lines: seq<Line>, id: int, quantity: int, member: int, i: nat)
    requires i < |lines|
    ensures var r := LinesAfterQuantity(lines, id, quantity, member);
            r[i].id == lines[i].id &&
            (lines[i].id != id ==> r[i] == lines[i]) &&
            (lines[i].id == id ==> r[i].quantity == quantity &&
                                   r[i].harga == ResolvePrice(lines[i], member, quantity).harga &&
                                   r[i].subTotal == quantity * r[i].harga &&
                                   r[i] == lines[i].(quantity := r[i].quantity, harga := r[i].harga, subTotal := r[i].subTotal))
  {
    LinesAfterQuantityPointwise(lines, id, quantity, member);
  }

  /** A manual price survives any later quantity change and any member. */
  lemma ManualPriceSticky(lines: seq<Line>, id: int, quantity: int, member: int, i: nat)
    requires i < |lines| && lines[i].id == id && lines[i].manualHargaSatuan.Some?
    ensures LinesAfterQuantity(lines, id, quantity, member)[i].harga == lines[i].manualHargaSatuan.value
    ensures LinesAfterQuantity(lines, id, quantity, member)[i].manualHargaSatuan == lines[i].manualHargaSatuan
  {
    LinesAfterQuantityPointwise(lines, id, quantity, member);
  }

  lemma QuantityChangeKeepsInvariants(lines: seq<Line>, id: int, quantity: int, member: int)
    requires UniqueIds(lines) && SubTotalsConsistent(lines)
    ensures UniqueIds(LinesAfterQuantity(lines, id, quantity, member))
    ensures SubTotalsConsistent(LinesAfterQuantity(lines, id, quantity, member))
  {
    LinesAfterQuantityPointwise(lines, id, quantity, member);
  }

  /** An unknown id changes nothing and raises no notification. */
  lemma {:induction false} QuantityChangeAbsent(lines: seq<Line>, id: int, quantity: int, member: int)
    requires !Contains(lines, id)
    ensures LinesAfterQuantity(lines, id, quantity, member) == lines
    ensures QuantityToasts(lines, id, quantity, member) == []
    decreases |lines|
  {
    if lines != [] {
      assert !Contains(lines[1..], id) by {
        assert forall j :: 0 <= j < |lines[1..]| ==> lines[1..][j] == lines[j + 1];
      }
      QuantityChangeAbsent(lines[1..], id, quantity, member);
      assert lines[0].id != id;
    }
  }

  /** With unique ids a quantity change raises exactly the changed line's notification. */
  lemma {:induction false} QuantityToastsOfLine(lines: seq<Line>, id: int, quantity: int, member: int, i: nat)
    requires UniqueIds(lines) && i < |lines| && lines[i].id == id
    ensures QuantityToasts(lines, id, quantity, member) ==
            QuantityToast(lines[i], ResolvePrice(lines[i], member, quantity).origin)
    decreases |lines|
  {
    if i == 0 {
      assert !Contains(lines[1..], id) by {
        assert forall j :: 0 <= j < |lines[1..]| ==> lines[1..][j] == lines[j + 1];
      }
      QuantityChangeAbsent(lines[1..], id, quantity, member);
    } else {
      assert lines[0].id != id;
      assert lines[1..][i - 1] == lines[i];
      QuantityToastsOfLine(lines[1..], id, quantity, member, i - 1);
    }
  }

  /**
   * A notification fires on every quantity change that lands in a wholesale
   * tier, also when the previous quantity was already in that tier.
   */
  lemma GrosirToastOnEveryChange(line: Line, quantity: int)
    requires line.manualHargaSatuan.None? && AnyTierQualifies(line.hargaGrosir, quantity)
    ensures QuantityToast(line, ResolvePrice(line, 0, quantity).origin) == ["Using grosir price for " + line.name]
  {
  }

  /** A manually priced line never raises a notification. */
  lemma ManualLineIsSilent(line: Line, member: int, quantity: int)
    requires line.manualHargaSatuan.Some?
    ensures QuantityToast(line, ResolvePrice(line, member, quantity).origin) == []
  {
  }

  /** The total after a quantity change: the old total with that line's subtotal replaced. */
  lemma TotalAfterQuantityChange(lines: seq<Line>, id: int, quantity: int, member: int, i: nat)
    requires UniqueIds(lines) && i < |lines| && lines[i].id == id
    ensures SumSubTotals(LinesAfterQuantity(lines, id, quantity, member)) ==
            SumSubTotals(lines) - lines[i].subTotal + quantity * ResolvePrice(lines[i], member, quantity).harga
  {
    LinesAfterQuantityPointwise(lines, id, quantity, member);
    SumReplaceOne(lines, LinesAfterQuantity(lines, id, quantity, member), i);
  }

  // ---- Properties of adding ----

  /** Adding no product leaves the cart as it is. */
  lemma AddNothing(lines: seq<Line>, member: int)
    ensures LinesAfterAdd(lines, None, member) == lines && AddToasts(lines, None, member) == []
  {
  }

  /** Adding a product already in the cart raises that line's quantity by one, in place. */
  lemma AddExistingIncrements(lines: seq<Line>, p: Product, member: int, i: nat)
    requires UniqueIds(lines) && i < |lines| && lines[i].id == p.id
    ensures var r := LinesAfterAdd(lines, Some(p), member);
            |r| == |lines| && r[i] == Requantified(lines[i], member, lines[i].quantity + 1) &&
            forall j :: 0 <= j < |lines| && j != i ==> r[j] == lines[j]
  {
    LinesAfterQuantityPointwise(lines, p.id, lines[i].quantity + 1, member);
    var k := IndexOfId(lines, p.id);
    assert k == Some(i);
  }

  /**
   * A product not yet in the cart is appended as a line of quantity 1 whose
   * `original_harga` is the catalog price and whose price is the member's
   * price when the member is non-zero and has one, the catalog price otherwise.
   */
  lemma AddNewAppends(lines: seq<Line>, p: Product, member: int)
    requires !Contains(lines, p.id)
    ensures var r := LinesAfterAdd(lines, Some(p), member);
            var l := r[|lines|];
            |r| == |lines| + 1 && r[..|lines|] == lines &&
            l.id == p.id && l.quantity == 1 && l.originalHarga == p.harga && l.subTotal == l.harga &&
            l.manualHargaSatuan.None? && l.memberPrices == p.memberPrices && l.hargaGrosir == p.hargaGrosir &&
            (if member != 0 && (exists mp :: mp in p.memberPrices && mp.memberId == member)
             then exists mp :: mp in p.memberPrices && mp.memberId == member && l.harga == mp.harga
             else l.harga == p.harga)
  {
    var f := FindMemberPrice(p.memberPrices, member);
    if f.Some? {
      assert f.value in p.memberPrices;
    }
    assert (lines + [NewLine(p, member)])[..|lines|] == lines;
  }

  /** Adding never consults the wholesale tiers: the starting price is the same for any tier list. */
  lemma AddIgnoresTiers(p: Product, member: int, tiers: seq<GrosirConfig>)
    ensures NewLine(p.(hargaGrosir := tiers), member).harga == NewLine(p, member).harga
  {
  }

  /**
   * So, for the walk-in member, a product whose tiers start at 1 is added at
   * its catalog price while its row is classified `grosir`.
   */
  lemma NewLineBadgeMayNotMatchPrice(lines: seq<Line>, p: Product)
    requires !Contains(lines, p.id) && AnyTierQualifies(p.hargaGrosir, 1)
    ensures var l := LinesAfterAdd(lines, Some(p), 0)[|lines|];
            l.harga == p.harga && Classify(l, 0) == Grosir
  {
  }

  lemma AddKeepsInvariants(lines: seq<Line>, product: Option<Product>, member: int)
    requires UniqueIds(lines) && SubTotalsConsistent(lines)
    ensures UniqueIds(LinesAfterAdd(lines, product, member))
    ensures SubTotalsConsistent(LinesAfterAdd(lines, product, member))
  {
    if product.Some? {
      var p := product.value;
      match IndexOfId(lines, p.id)
      case Some(i) =>
        QuantityChangeKeepsInvariants(lines, p.id, lines[i].quantity + 1, member);
      case None =>
        var l := NewLine(p, member);
        var r := lines + [l];
        assert LinesAfterAdd(lines, product, member) == r;
        assert l.id == p.id && l.subTotal == l.quantity * l.harga;
        assert forall j :: 0 <= j < |lines| ==> r[j] == lines[j] && lines[j].id != p.id;
        assert r[|lines|] == l;
    }
  }

  /** Adding a product not yet in the cart notifies exactly when the member has a price for it. */
  lemma AddToastsOfNewMemberLine(lines: seq<Line>, p: Product, member: int)
    requires !Contains(lines, p.id)
    ensures AddToasts(lines, Some(p), member) != [] <==>
              member != 0 && exists mp :: mp in p.memberPrices && mp.memberId == member
  {
    var f := FindMemberPrice(p.memberPrices, member);
    if f.Some? {
      assert f.value in p.memberPrices;
    }
  }

  /** A run of adds, one after the other. */
  function AddAll(lines: seq<Line>, products: seq<Option<Product>>, member: int): seq<Line>
    decreases |products|
  {
    if products == [] then lines else AddAll(LinesAfterAdd(lines, products[0], member), products[1..], member)
  }

  /** No sequence of adds ever produces two lines for one product id. */
  lemma {:induction false} AddAllKeepsIdsUnique(lines: seq<Line>, products: seq<Option<Product>>, member: int)
    requires UniqueIds(lines) && SubTotalsConsistent(lines)
    ensures UniqueIds(AddAll(lines, products, member)) && SubTotalsConsistent(AddAll(lines, products, member))
    decreases |products|
  {
    if products != [] {
      AddKeepsInvariants(lines, products[0], member);
      AddAllKeepsIdsUnique(LinesAfterAdd(lines, products[0], member), products[1..], member);
    }
  }

  // ---- Properties of removing ----

  /** Removing an id that is not in the cart changes nothing. */
  lemma {:induction false} RemoveAbsentIsNoop(lines: seq<Line>, id: int)
    requires !Contains(lines, id)
    ensures LinesAfterRemove(lines, id) == lines
    decreases |lines|
  {
    if lines != [] {
      assert !Contains(lines[1..], id) by {
        assert forall j :: 0 <= j < |lines[1..]| ==> lines[1..][j] == lines[j + 1];
      }
      RemoveAbsentIsNoop(lines[1..], id);
      assert lines[0].id != id;
      assert [lines[0]] + lines[1..] == lines;
    }
  }

  /** Removing the line at position i deletes exactly it and keeps the others in order. */
  lemma {:induction false} RemoveDeletesLine(lines: seq<Line>, id: int, i: nat)
    requires UniqueIds(lines) && i < |lines| && lines[i].id == id
    ensures LinesAfterRemove(lines, id) == lines[..i] + lines[i + 1..]
    decreases |lines|
  {
    if i == 0 {
      assert !Contains(lines[1..], id) by {
        assert forall j :: 0 <= j < |lines[1..]| ==> lines[1..][j] == lines[j + 1];
      }
      RemoveAbsentIsNoop(lines[1..], id);
    } else {
      assert lines[0].id != id;
      assert lines[1..][i - 1] == lines[i];
      RemoveDeletesLine(lines[1..], id, i - 1);
      assert lines[1..][..i - 1] == lines[1..i];
      assert lines[1..][i..] == lines[i + 1..];
      assert [lines[0]] + lines[1..i] == lines[..i];
    }
  }

  lemma RemoveKeepsInvariants(lines: seq<Line>, id: int)
    requires UniqueIds(lines) && SubTotalsConsistent(lines)
    ensures UniqueIds(LinesAfterRemove(lines, id)) && SubTotalsConsistent(LinesAfterRemove(lines, id))
  {
    var k := IndexOfId(lines, id);
    if k.Some? {
      RemoveDeletesLine(lines, id, k.value);
      var r := lines[..k.value] + lines[k.value + 1..];
      assert forall j :: 0 <= j < |r| ==> r[j] == lines[if j < k.value then j else j + 1];
    } else {
      RemoveAbsentIsNoop(lines, id);
    }
  }

  /** Removing a line takes exactly its subtotal off the total and one off the line count. */
  lemma TotalAfterRemove(lines: seq<Line>, id: int, i: nat)
    requires UniqueIds(lines) && i < |lines| && lines[i].id == id
    ensures SumSubTotals(LinesAfterRemove(lines, id)) == SumSubTotals(lines) - lines[i].subTotal
    ensures |LinesAfterRemove(lines, id)| == |lines| - 1
  {
    RemoveDeletesLine(lines, id, i);
    assert lines == lines[..i] + [lines[i]] + lines[i + 1..];
    SumAppend(lines[..i] + [lines[i]], lines[i + 1..]);
    SumAppend(lines[..i], [lines[i]]);
    SumAppend(lines[..i], lines[i + 1..]);
  }

  /** Adding a product not yet in the cart adds its starting price to the total and one to the line count. */
  lemma TotalAfterAddNew(lines: seq<Line>, p: Product, member: int)
    requires !Contains(lines, p.id)
    ensures SumSubTotals(LinesAfterAdd(lines, Some(p), member)) == SumSubTotals(lines) + NewLine(p, member).harga
    ensures |LinesAfterAdd(lines, Some(p), member)| == |lines| + 1
  {
    var r := lines + [NewLine(p, member)];
    assert LinesAfterAdd(lines, Some(p), member) == r;
    assert r[..|lines|] == lines;
  }

  // ---- The cart ----

  /**
   * The hook's state: the sale lines, the derived `total` and `totalItems`,
   * and the notifications raised so far (the toast side channel).
   */
  class Cart {
    var lines: seq<Line>
    var total: int
    var totalItems: nat
    var toasts: seq<string>

    /** `total` is the sum of the subtotals and `totalItems` the number of lines. */
    ghost predicate TotalsMatch()
      reads this
    {
      total == SumSubTotals(lines) && totalItems == |lines|
    }

    /** The totals match the list, ids are unique and every subtotal is quantity times price. */
    ghost predicate Valid()
      reads this
    {
      TotalsMatch() && UniqueIds(lines) && SubTotalsConsistent(lines)
    }

    constructor ()
      ensures Valid() && lines == [] && total == 0 && totalItems == 0 && toasts == []
    {
      lines, total, totalItems, toasts := [], 0, 0, [];
    }

    /** The effect that runs whenever the list changes. */
    method RecomputeTotals()
      modifies this
      ensures TotalsMatch() && lines == old(lines) && toasts == old(toasts)
    {
      total := SumSubTotals(lines);
      totalItems := |lines|;
    }

    /** Replace the list, followed by the totals effect. */
    method SetProducts(newLines: seq<Line>)
      modifies this
      ensures TotalsMatch() && lines == newLines && toasts == old(toasts)
    {
      lines := newLines;
      RecomputeTotals();
    }

    method AddProduct(product: Option<Product>, member: int)
      requires Valid()
      modifies this
      ensures Valid()
      ensures lines == LinesAfterAdd(old(lines), product, member)
      ensures toasts == old(toasts) + AddToasts(old(lines), product, member)
    {
      AddKeepsInvariants(lines, product, member);
      if product.None? {
        assert toasts == old(toasts) + [];
        return;
      }
      var p := product.value;
      var existing := IndexOfId(lines, p.id);
      if existing.Some? {
        ChangeQuantity(p.id, lines[existing.value].quantity + 1, member);
      } else {
        AppendProduct(p, member);
      }
    }

    /** The add of a product not yet in the cart: a member-priced line and a notification, or a regular line. */
    method AppendProduct(p: Product, member: int)
      requires Valid() && IndexOfId(lines, p.id).None?
      modifies this
      ensures Valid()
      ensures lines == old(lines) + [NewLine(p, member)]
      ensures toasts == old(toasts) + if MemberPriceOnAdd(p, member).Some? then ["Using member price for " + p.name] else []
    {
      AddKeepsInvariants(lines, Some(p), member);
      if member != 0 {
        var memberPrice := FindMemberPrice(p.memberPrices, member);
        if memberPrice.Some? {
          SetProducts(lines + [LineFor(p, memberPrice.value.harga)]);
          toasts := toasts + ["Using member price for " + p.name];
          return;
        }
      }
      SetProducts(lines + [LineFor(p, p.harga)]);
      assert toasts == old(toasts) + [];
    }

    method ChangeQuantity(id: int, quantity: int, member: int)
      requires Valid()
      modifies this
      ensures Valid()
      ensures lines == LinesAfterQuantity(old(lines), id, quantity, member)
      ensures toasts == old(toasts) + QuantityToasts(old(lines), id, quantity, member)
    {
      QuantityChangeKeepsInvariants(lines, id, quantity, member);
      var raised := QuantityToasts(lines, id, quantity, member);
      SetProducts(LinesAfterQuantity(lines, id, quantity, member));
      toasts := toasts + raised;
    }

    method RemoveProduct(id: int)
      requires Valid()
      modifies this
      ensures Valid()
      ensures lines == LinesAfterRemove(old(lines), id)
      ensures toasts == old(toasts)
    {
      RemoveKeepsInvariants(lines, id);
      SetProducts(LinesAfterRemove(lines, id));
    }
  }
}
