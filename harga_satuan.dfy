/**
 * The unit-price editor of the cashier table: a draft per line id while the
 * cashier types, committed on blur as a manual price that from then on beats
 * every other pricing rule for that line.
 */
module HargaSatuan {
  import opened Wrappers
  import opened Decimal
  import opened Catalog
  import opened Pricing
  import opened ProductManagement

  /**
   * The draft value after typing: the typed number unless it is missing or
   * zero, in which case the previous draft value stays.
   */
  function DraftValue(input: string, previous: int): (v: int)
    ensures ParseNumber(input).Some? && ParseNumber(input).value != 0 ==> v == ParseNumber(input).value
    ensures ParseNumber(input).None? || ParseNumber(input) == Some(0) ==> v == previous
  {
    match ParseNumber(input)
    case Some(n) => if n != 0 then n else previous
    case None => previous
  }

  /** The line's manual price, unit price and subtotal set from a committed number. */
  function WithManualPrice(lines: seq<Line>, id: int, price: nat): (r: seq<Line>)
    ensures |r| == |lines|
    ensures forall i :: 0 <= i < |lines| ==>
              r[i] == if lines[i].id == id
                      then lines[i].(manualHargaSatuan := Some(price), harga := price, subTotal := lines[i].quantity * price)
                      else lines[i]
    decreases |lines|
  {
    if lines == [] then []
    else [if lines[0].id == id
          then lines[0].(manualHargaSatuan := Some(price), harga := price, subTotal := lines[0].quantity * price)
          else lines[0]]
         + WithManualPrice(lines[1..], id, price)
  }

  /** What a blur does to the list: commit the parsed draft, or nothing when it does not parse. */
  function LinesAfterBlur(lines: seq<Line>, id: int, input: string): (r: seq<Line>)
    ensures |r| == |lines|
    ensures forall i :: 0 <= i < |r| ==> r[i].id == lines[i].id && r[i].quantity == lines[i].quantity
    ensures ParseNumber(input).None? ==> r == lines
  {
    match ParseNumber(input)
    case Some(n) => WithManualPrice(lines, id, n)
    case None => lines
  }

  /**
   * A committed price is the line's price for good: the row is tagged manual
   * and any later quantity change under any member keeps that price.
   */
  lemma CommittedPriceIsSticky(lines: seq<Line>, id: int, price: nat, i: nat, member: int, quantity: int)
    requires i < |lines| && lines[i].id == id
    ensures var r := WithManualPrice(lines, id, price);
            Classify(r[i], member) == Manual &&
            LinesAfterQuantity(r, id, quantity, member)[i].harga == price &&
            LinesAfterQuantity(r, id, quantity, member)[i].subTotal == quantity * price
  {
    var r := WithManualPrice(lines, id, price);
    ManualPriceSticky(r, id, quantity, member, i);
    QuantityChangeRewritesOnlyThatLine(r, id, quantity, member, i);
  }

  /** The commit happens even when the typed number equals the current price. */
  lemma CommitOfSamePriceStillOverrides(lines: seq<Line>, i: nat)
    requires i < |lines| && lines[i].manualHargaSatuan.None?
    ensures var r := LinesAfterBlur(lines, lines[i].id, DecimalString(lines[i].harga));
            r[i].harga == lines[i].harga && r[i].manualHargaSatuan == Some(lines[i].harga)
  {
    ParseDecimalString(lines[i].harga);
  }

  lemma ManualPriceKeepsInvariants(lines: seq<Line>, id: int, price: nat)
    requires UniqueIds(lines) && SubTotalsConsistent(lines)
    ensures UniqueIds(WithManualPrice(lines, id, price)) && SubTotalsConsistent(WithManualPrice(lines, id, price))
  {
  }

  /** The total after a commit: that line's subtotal becomes quantity times the new price. */
  lemma TotalAfterCommit(lines: seq<Line>, id: int, price: nat, i: nat)
    requires UniqueIds(lines) && i < |lines| && lines[i].id == id
    ensures SumSubTotals(WithManualPrice(lines, id, price)) == SumSubTotals(lines) - lines[i].subTotal + lines[i].quantity * price
  {
    SumReplaceOne(lines, WithManualPrice(lines, id, price), i);
  }

  /** A draft that is empty (all the digit sanitiser can leave unparseable) commits nothing. */
  lemma EmptyDraftCommitsNothing(lines: seq<Line>, id: int, input: string)
    requires IsDigits(input)
    ensures input == [] ==> LinesAfterBlur(lines, id, input) == lines
    ensures input != [] ==> LinesAfterBlur(lines, id, input) == WithManualPrice(lines, id, DigitsValue(input))
  {
  }

  /** The drafts of the unit-price inputs, keyed by line id, and their three handlers. */
  class PriceEditor {
    var states: map<int, DraftState>

    constructor ()
      ensures states == map[]
    {
      states := map[];
    }

    method Focus(id: int, currentValue: nat)
      modifies this
      ensures states == old(states)[id := DraftState(currentValue, true, DecimalString(currentValue))]
    {
      states := states[id := DraftState(currentValue, true, DecimalString(currentValue))];
    }

    method Change(id: int, inputValue: string)
      modifies this
      ensures states == old(states)[id := DraftState(DraftValue(inputValue, if id in old(states) then old(states)[id].value else 0),
                                                     true, inputValue)]
    {
      var previous := if id in states then states[id].value else 0;
      states := states[id := DraftState(DraftValue(inputValue, previous), true, inputValue)];
    }

    /**
     * Without an editing draft for `id` nothing happens. Otherwise the draft
     * is committed to the cart when it parses and is dropped in any case;
     * other ids' drafts are untouched.
     */
    method Blur(id: int, cart: Cart)
      requires cart.Valid()
      modifies this, cart
      ensures cart.Valid() && cart.toasts == old(cart.toasts)
      ensures id in old(states) && old(states)[id].isEditing ==>
                states == old(states) - {id} &&
                cart.lines == LinesAfterBlur(old(cart.lines), id, old(states)[id].inputValue)
      ensures !(id in old(states) && old(states)[id].isEditing) ==>
                states == old(states) && cart.lines == old(cart.lines) && cart.total == old(cart.total)
    {
      if id in states && states[id].isEditing {
        var numericValue := ParseNumber(states[id].inputValue);
        if numericValue.Some? {
          ManualPriceKeepsInvariants(cart.lines, id, numericValue.value);
          cart.SetProducts(WithManualPrice(cart.lines, id, numericValue.value));
        }
        states := states - {id};
      }
    }
  }
}
