/**
 * Product records and the editable price-history rows shared by the vendor's "Add Product" and
 * "Update Product" forms, whose row handlers are the same list operations.
 */
module ProductRecords {
  import opened Common

  /**
   * What a row's `date` (or a product's `date`) holds at run time. `toISOString` is modelled
   * as the injective constructor `IsoText`: it turns a valid instant into its ISO-8601 text.
   */
  datatype DateValue =
    | DateObj(instant: int)   // a JavaScript Date with a valid time value
    | InvalidDate             // a Date whose time value is NaN
    | IsoText(instant: int)   // the ISO-8601 string of an instant, as the server stores it
    | OtherText(text: string) // any other string
    | NullDate                // null, what the date picker reports when it is cleared

  /** One row of the price-history editor: the price is the raw text of a number input. */
  datatype PriceRow = PriceRow(date: DateValue, price: string)

  /** `handlePriceChange(index, field, value)`: the field named and the value it receives. */
  datatype RowEdit = SetDate(date: DateValue) | SetPrice(price: string)

  /** A product as the server stores it and as the forms send it. */
  datatype ProductRecord = ProductRecord(
    marketName: string,
    marketDescription: string,
    itemName: string,
    itemDescription: string,
    pricePerUnit: string,
    productImage: Option<string>,
    vendorName: Option<string>,
    vendorEmail: Option<string>,
    status: Option<string>,
    priceHistory: seq<PriceRow>,
    date: DateValue)

  /** The row a new form starts with and "+ Add Price Row" appends: dated now, price empty. */
  function EmptyRow(now: int): PriceRow
  {
    PriceRow(DateObj(now), "")
  }

  /** Assigning `value` to the named field of one row. */
  function ApplyEdit(row: PriceRow, edit: RowEdit): PriceRow
  {
    match edit
    case SetDate(d) => row.(date := d)
    case SetPrice(p) => row.(price := p)
  }

  /** The edit that puts back the field `edit` overwrites. */
  function UndoEdit(row: PriceRow, edit: RowEdit): RowEdit
  {
    match edit
    case SetDate(_) => SetDate(row.date)
    case SetPrice(_) => SetPrice(row.price)
  }

  /** `updatedPrices[index][field] = value` on a copy of the list. */
  function SetField(rows: seq<PriceRow>, index: int, edit: RowEdit): (r: seq<PriceRow>)
    requires 0 <= index < |rows|
    ensures |r| == |rows|
    ensures forall j :: 0 <= j < |rows| && j != index ==> r[j] == rows[j]
    ensures edit.SetDate? ==> r[index].date == edit.date && r[index].price == rows[index].price
    ensures edit.SetPrice? ==> r[index].price == edit.price && r[index].date == rows[index].date
  {
    rows[index := ApplyEdit(rows[index], edit)]
  }

  /** `[...rows, { date: new Date(), price: "" }]`. */
  function AppendEmptyRow(rows: seq<PriceRow>, now: int): (r: seq<PriceRow>)
    ensures |r| == |rows| + 1 && r[..|rows|] == rows
    ensures r[|rows|].price == "" && r[|rows|].date == DateObj(now)
  {
    rows + [EmptyRow(now)]
  }

  /** `rows.filter((_, i) => i !== index)`, walking the positions as `filter` does. */
  function WithoutIndex(rows: seq<PriceRow>, index: int): (r: seq<PriceRow>)
    ensures 0 <= index < |rows| ==> r == rows[..index] + rows[index + 1..]
    ensures !(0 <= index < |rows|) ==> r == rows
    decreases |rows|
  {
    if rows == [] then []
    else
      var n := |rows| - 1;
      var front := WithoutIndex(rows[..n], index);
      assert rows == rows[..n] + [rows[n]];
      if n == index then front else front + [rows[n]]
  }

  /** `handleRemovePriceRow`: the row is filtered out only while more than one row remains. */
  function RemoveRow(rows: seq<PriceRow>, index: int): (r: seq<PriceRow>)
    ensures rows != [] ==> r != []
    ensures |rows| > 1 && 0 <= index < |rows| ==> r == rows[..index] + rows[index + 1..]
    ensures |rows| <= 1 || !(0 <= index < |rows|) ==> r == rows
  {
    if |rows| > 1 then WithoutIndex(rows, index) else rows
  }

  /** `rows.some(item => !item.price)`: some row's price is the empty string. */
  predicate HasEmptyPrice(rows: seq<PriceRow>)
  {
    exists i :: 0 <= i < |rows| && rows[i].price == ""
  }

  // ---------------------------------------------------------------------------------------------
  // Properties of the row operations

  /** Editing a field and then writing its old value back restores the list. */
  lemma EditIsUndone(rows: seq<PriceRow>, index: int, edit: RowEdit)
    requires 0 <= index < |rows|
    ensures SetField(SetField(rows, index, edit), index, UndoEdit(rows[index], edit)) == rows
  {
    var once := SetField(rows, index, edit);
    var twice := SetField(once, index, UndoEdit(rows[index], edit));
    assert twice[index] == rows[index];
  }

  /** Only the last of two edits to the same field of a row is kept. */
  lemma LastEditWins(rows: seq<PriceRow>, index: int, first: RowEdit, second: RowEdit)
    requires 0 <= index < |rows|
    requires first.SetDate? == second.SetDate?
    ensures SetField(SetField(rows, index, first), index, second) == SetField(rows, index, second)
  {
  }

  /** Removing the row just appended gives back the list it was appended to. */
  lemma RemoveUndoesAppend(rows: seq<PriceRow>, now: int)
    requires rows != []
    ensures RemoveRow(AppendEmptyRow(rows, now), |rows|) == rows
  {
    var grown := AppendEmptyRow(rows, now);
    assert grown[..|rows|] == rows;
  }

  /** After "+ Add Price Row" the form cannot be submitted until the new price is filled in. */
  lemma AppendedRowBlocksSubmit(rows: seq<PriceRow>, now: int)
    ensures HasEmptyPrice(AppendEmptyRow(rows, now))
  {
    assert AppendEmptyRow(rows, now)[|rows|].price == "";
  }

  /** Removing rows one by one, from any index, never empties a non-empty list. */
  lemma {:induction false} RemovalsKeepARow(rows: seq<PriceRow>, indices: seq<int>)
    requires rows != []
    ensures RemoveAll(rows, indices) != []
    decreases |indices|
  {
    if indices != [] {
      RemovalsKeepARow(RemoveRow(rows, indices[0]), indices[1..]);
    }
  }

  /** The list after a sequence of "Remove" clicks at the given indices. */
  function RemoveAll(rows: seq<PriceRow>, indices: seq<int>): seq<PriceRow>
    decreases |indices|
  {
    if indices == [] then rows else RemoveAll(RemoveRow(rows, indices[0]), indices[1..])
  }
}
