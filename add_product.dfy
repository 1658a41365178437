/** The vendor's "Add Product" page: the price-history editor and the record it posts. */
module AddProduct {
  import opened Common
  import opened ProductRecords

  /**
   * The values react-hook-form holds for the registered inputs. Of the file input only whether a
   * file is chosen matters here; the URL it uploads to is a parameter of the submission.
   */
  datatype ProductForm = ProductForm(
    marketName: string,
    marketDescription: string,
    itemName: string,
    itemDescription: string,
    pricePerUnit: string,
    imageChosen: bool,
    date: DateValue)

  /** The form's `defaultValues`, whose dates are taken when the page mounts. */
  function DefaultForm(mountedAt: int): ProductForm
  {
    ProductForm("", "", "", "", "", false, DateObj(mountedAt))
  }

  /** What pressing "Add Product" leads to. */
  datatype Submission =
    | BlockedByBrowser             // a price input's native `required` stops the submit event
    | FieldErrors                  // react-hook-form's `required` rules fail; `onSubmit` is not called
    | MissingPrice                 // `onSubmit`'s own check: an alert asks for every price; nothing is sent
    | ConversionFailed             // `toISOString` threw inside the `try`; an alert, nothing is sent
    | Post(record: ProductRecord)  // the body of `POST /products`

  /** How the server answered the post. */
  datatype PostResponse = Acknowledged | NotAcknowledged(message: string) | RequestFailed

  /** Every row's date is a valid Date, the only kind `toISOString` accepts. */
  predicate AllValidDates(rows: seq<PriceRow>)
  {
    forall i :: 0 <= i < |rows| ==> rows[i].date.DateObj?
  }

  /** `date.toISOString()`: `None` when it throws (an invalid Date, null, or a string). */
  function ToIso(d: DateValue): (r: Option<DateValue>)
    ensures r.Some? <==> d.DateObj?
    ensures r.Some? ==> r.value == IsoText(d.instant)
  {
    if d.DateObj? then Some(IsoText(d.instant)) else None
  }

  /** `rows.map(item => ({ ...item, date: item.date.toISOString() }))`: `None` when any row throws. */
  function IsoRows(rows: seq<PriceRow>): (r: Option<seq<PriceRow>>)
    ensures r.Some? <==> AllValidDates(rows)
    ensures r.Some? ==> |r.value| == |rows|
    ensures r.Some? ==>
      forall i :: 0 <= i < |rows| ==> r.value[i] == PriceRow(IsoText(rows[i].date.instant), rows[i].price)
    decreases |rows|
  {
    if rows == [] then Some([])
    else
      var n := |rows| - 1;
      var front := IsoRows(rows[..n]);
      assert forall i :: 0 <= i < n ==> rows[..n][i] == rows[i];
      if front.None? || !rows[n].date.DateObj? then None
      else Some(front.value + [PriceRow(IsoText(rows[n].date.instant), rows[n].price)])
  }

  /** `user?.displayName`. */
  function DisplayNameOf(user: Option<User>): Option<string>
  {
    if user.Some? then user.value.displayName else None
  }

  /** `user?.email`. */
  function EmailOf(user: Option<User>): Option<string>
  {
    if user.Some? then user.value.email else None
  }

  /**
   * `onSubmit(data)` up to the request: the empty-price check, then `formattedData`, built from
   * the form values, the uploaded image URL (`None` when no file was chosen or the upload failed)
   * and the signed-in user.
   */
  function SubmitOutcome(form: ProductForm, rows: seq<PriceRow>, user: Option<User>, image: Option<string>): (s: Submission)
    ensures HasEmptyPrice(rows) ==> s == MissingPrice
    ensures s != BlockedByBrowser && s != FieldErrors
    ensures s.Post? <==> !HasEmptyPrice(rows) && AllValidDates(rows) && form.date.DateObj?
    ensures s.Post? ==>
      && s.record.status == Some("pending")
      && s.record.vendorName == Some(OrElse(DisplayNameOf(user), "Unknown Vendor"))
      && s.record.vendorEmail == Some(OrElse(EmailOf(user), "vendor email"))
      && s.record.productImage == image
      && s.record.marketName == form.marketName && s.record.itemName == form.itemName
      && s.record.marketDescription == form.marketDescription
      && s.record.itemDescription == form.itemDescription
      && s.record.pricePerUnit == form.pricePerUnit
      && s.record.date == IsoText(form.date.instant)
      && |s.record.priceHistory| == |rows|
      && forall i :: 0 <= i < |rows| ==>
           s.record.priceHistory[i].price == rows[i].price &&
           s.record.priceHistory[i].date == IsoText(rows[i].date.instant)
  {
    if HasEmptyPrice(rows) then MissingPrice
    else
      var history := IsoRows(rows);
      var date := ToIso(form.date);
      if history.None? || date.None? then ConversionFailed
      else
        Post(ProductRecord(
          form.marketName, form.marketDescription, form.itemName, form.itemDescription, form.pricePerUnit,
          image,
          Some(OrElse(DisplayNameOf(user), "Unknown Vendor")),
          Some(OrElse(EmailOf(user), "vendor email")),
          Some("pending"),
          history.value,
          date.value))
  }

  /** react-hook-form's `required` rules: market name, item name, price per unit and an image file. */
  predicate RulesMet(form: ProductForm)
  {
    form.marketName != "" && form.itemName != "" && form.pricePerUnit != "" && form.imageChosen
  }

  /**
   * Pressing the submit button: the browser checks the price inputs' native `required` first,
   * then `handleSubmit` checks the registered rules, and only then `onSubmit` runs.
   */
  function PressSubmit(form: ProductForm, rows: seq<PriceRow>, user: Option<User>, image: Option<string>): (s: Submission)
    ensures HasEmptyPrice(rows) ==> s == BlockedByBrowser
    ensures !HasEmptyPrice(rows) && !RulesMet(form) ==> s == FieldErrors
    ensures s.Post? <==> !HasEmptyPrice(rows) && RulesMet(form) && AllValidDates(rows) && form.date.DateObj?
    ensures s.Post? ==> s == SubmitOutcome(form, rows, user, image)
  {
    if HasEmptyPrice(rows) then BlockedByBrowser
    else if !RulesMet(form) then FieldErrors
    else SubmitOutcome(form, rows, user, image)
  }

  /** `onSubmit`'s empty-price alert cannot be reached from the button: the browser stops an empty price first. */
  lemma {:induction false} EmptyPriceAlertUnreachable(form: ProductForm, rows: seq<PriceRow>, user: Option<User>, image: Option<string>)
    ensures PressSubmit(form, rows, user, image) != MissingPrice
  {
    if !HasEmptyPrice(rows) && RulesMet(form) {
      assert SubmitOutcome(form, rows, user, image) != MissingPrice;
    }
  }

  /** Every posted record names its market, item and unit price: none of them is ever empty. */
  lemma PostedRecordHasRequiredFields(form: ProductForm, rows: seq<PriceRow>, user: Option<User>, image: Option<string>)
    requires PressSubmit(form, rows, user, image).Post?
    ensures var r := PressSubmit(form, rows, user, image).record;
      r.marketName != "" && r.itemName != "" && r.pricePerUnit != "" && |r.priceHistory| == |rows|
      && forall i :: 0 <= i < |rows| ==> r.priceHistory[i].price != ""
  {
    assert !HasEmptyPrice(rows);
  }

  /** Reads an ISO date back as the Date it was produced from. */
  function FromIso(rows: seq<PriceRow>): seq<PriceRow>
  {
    seq(|rows|, i requires 0 <= i < |rows| =>
      PriceRow(if rows[i].date.IsoText? then DateObj(rows[i].date.instant) else rows[i].date, rows[i].price))
  }

  /** The posted history determines the rows that were entered: the ISO conversion loses nothing. */
  lemma SubmittedHistoryRoundTrip(form: ProductForm, rows: seq<PriceRow>, user: Option<User>, image: Option<string>)
    requires SubmitOutcome(form, rows, user, image).Post?
    ensures FromIso(SubmitOutcome(form, rows, user, image).record.priceHistory) == rows
  {
    var posted := SubmitOutcome(form, rows, user, image).record.priceHistory;
    assert forall i :: 0 <= i < |rows| ==> rows[i].date == DateObj(posted[i].date.instant);
  }

  /** The page: react-hook-form's values and the separately kept price-history rows. */
  class AddProductPage {
    const mountedAt: int
    var form: ProductForm
    var priceHistory: seq<PriceRow>

    /** The editor always shows at least one row. */
    ghost predicate Valid()
      reads this
    {
      priceHistory != []
    }

    /** The page mounts with the default values and exactly one empty row. */
    constructor(now: int)
      ensures mountedAt == now && form == DefaultForm(now)
      ensures priceHistory == [EmptyRow(now)]
      ensures Valid() && HasEmptyPrice(priceHistory)
    {
      mountedAt := now;
      form := DefaultForm(now);
      priceHistory := [EmptyRow(now)];
      new;
      assert priceHistory[0].price == "";
    }

    /** `handlePriceChange(index, field, value)`. */
    method HandlePriceChange(index: int, edit: RowEdit)
      requires 0 <= index < |priceHistory|
      modifies this
      ensures priceHistory == SetField(old(priceHistory), index, edit)
      ensures form == old(form)
      ensures Valid() == old(Valid())
    {
      priceHistory := SetField(priceHistory, index, edit);
    }

    /** `handleAddPriceRow`. */
    method HandleAddPriceRow(now: int)
      modifies this
      ensures priceHistory == AppendEmptyRow(old(priceHistory), now)
      ensures form == old(form)
      ensures Valid()
    {
      priceHistory := AppendEmptyRow(priceHistory, now);
    }

    /** `handleRemovePriceRow(index)`. */
    method HandleRemovePriceRow(index: int)
      modifies this
      ensures priceHistory == RemoveRow(old(priceHistory), index)
      ensures form == old(form)
      ensures old(Valid()) ==> Valid()
    {
      priceHistory := RemoveRow(priceHistory, index);
    }

    /**
     * Pressing "Add Product": computes what is sent; `reset()` after an acknowledged post restores
     * the react-hook-form defaults only, so the price rows stay as they were.
     */
    method SubmitForm(user: Option<User>, image: Option<string>, response: PostResponse) returns (s: Submission)
      modifies this
      ensures s == PressSubmit(old(form), old(priceHistory), user, image)
      ensures priceHistory == old(priceHistory)
      ensures form == (if s.Post? && response == Acknowledged then DefaultForm(mountedAt) else old(form))
    {
      s := PressSubmit(form, priceHistory, user, image);
      if s.Post? && response == Acknowledged {
        form := DefaultForm(mountedAt);
      }
    }
  }
}
