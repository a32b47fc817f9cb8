/**
 * A self-contained unit-price cell: its own draft (value, editing flag,
 * typed text) and a callback to the parent that is called on blur only when
 * the typed price differs from the row's price.
 */
module HargaCellView {
  import opened Wrappers
  import opened Decimal
  import opened Catalog
  import opened HargaSatuan

  /** A call of the parent's price-change callback with a line id and its new price. */
  datatype PriceCommit = PriceCommit(id: int, newHarga: nat)

  /** The callback a blur makes, if any: a parseable draft that differs from the row's price. */
  function CommitOnBlur(inputValue: string, row: Line): (c: Option<PriceCommit>)
    ensures c.Some? <==> ParseNumber(inputValue).Some? && ParseNumber(inputValue).value != row.harga
    ensures c.Some? ==> c.value == PriceCommit(row.id, ParseNumber(inputValue).value)
  {
    match ParseNumber(inputValue)
    case Some(n) => if n != row.harga then Some(PriceCommit(row.id, n)) else None
    case None => None
  }

  /**
   * Focusing and leaving the cell without typing makes no call, since the
   * draft starts as the row's price written out.
   */
  lemma UntouchedDraftCommitsNothing(row: Line)
    ensures CommitOnBlur(DecimalString(row.harga), row) == None
  {
    ParseDecimalString(row.harga);
  }

  /** A typed price equal to the row's price is no change, whatever its leading zeros. */
  lemma SamePriceCommitsNothing(zeros: string, row: Line)
    requires forall i :: 0 <= i < |zeros| ==> zeros[i] == '0'
    ensures CommitOnBlur(zeros + DecimalString(row.harga), row) == None
  {
    LeadingZerosValue(zeros, DecimalString(row.harga));
    DecimalStringValue(row.harga);
  }

  class HargaCell {
    var draft: DraftState

    /** The draft starts from the row's price, not editing. */
    constructor (row: Line)
      ensures draft == DraftState(row.harga, false, DecimalString(row.harga))
    {
      draft := DraftState(row.harga, false, DecimalString(row.harga));
    }

    method Focus()
      modifies this
      ensures draft == old(draft).(isEditing := true)
    {
      draft := draft.(isEditing := true);
    }

    /** Typed text is reduced to its digits; the value follows it unless it reads as 0 or nothing. */
    method Change(typed: string)
      modifies this
      ensures draft == old(draft).(inputValue := KeepDigits(typed), value := DraftValue(KeepDigits(typed), old(draft).value))
      ensures IsDigits(draft.inputValue)
    {
      var value := KeepDigits(typed);
      draft := draft.(inputValue := value, value := DraftValue(value, draft.value));
    }

    /** Leaving the cell ends editing in every case and reports a changed price to the parent. */
    method Blur(row: Line) returns (commit: Option<PriceCommit>)
      modifies this
      ensures commit == CommitOnBlur(old(draft).inputValue, row)
      ensures draft == old(draft).(isEditing := false)
    {
      commit := CommitOnBlur(draft.inputValue, row);
      draft := draft.(isEditing := false);
    }

    /** Enter leaves the cell, which blurs it. */
    method KeyDown(key: string, row: Line) returns (commit: Option<PriceCommit>)
      modifies this
      ensures key == "Enter" ==> commit == CommitOnBlur(old(draft).inputValue, row) && draft == old(draft).(isEditing := false)
      ensures key != "Enter" ==> commit == None && draft == old(draft)
    {
      commit := None;
      if key == "Enter" {
        commit := Blur(row);
      }
    }

    /** The draft text while editing, otherwise the row's price written out. */
    function DisplayValue(row: Line): (s: string)
      reads this
      ensures draft.isEditing ==> s == draft.inputValue
      ensures !draft.isEditing ==> ParseNumber(s) == Some(row.harga)
    {
      ParseDecimalString(row.harga);
      if draft.isEditing then draft.inputValue else DecimalString(row.harga)
    }
  }
}
