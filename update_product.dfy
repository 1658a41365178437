/** The vendor's "Update Product" page: loading a product into the form, editing it, and the patch it sends. */
module UpdateProduct {
  import opened Common
  import opened ProductRecords

  /** The file input's value: the image URL loaded from the server, nothing, or a newly chosen FileList. */
  datatype ImageField = ImageText(url: string) | NoImage | ChosenFiles

  /** The page's `formData` state. `vendorName` and `vendorEmail` exist only once a product is loaded. */
  datatype UpdateForm = UpdateForm(
    vendorName: Option<string>,
    vendorEmail: Option<string>,
    marketName: string,
    marketDescription: string,
    itemName: string,
    itemDescription: string,
    pricePerUnit: string,
    productImage: ImageField,
    priceHistory: seq<PriceRow>,
    date: DateValue)

  /** The text inputs wired to `formData` (the description and vendor fields have no change handler). */
  datatype TextField = MarketName | ItemName | PricePerUnit

  /** The initial `formData`, and the value the form is reset to after a submission. */
  function DefaultForm(now: int): (f: UpdateForm)
    ensures f.priceHistory == [EmptyRow(now)] && HasEmptyPrice(f.priceHistory)
    ensures f.vendorName.None? && f.vendorEmail.None? && f.productImage == ImageText("")
  {
    var f := UpdateForm(None, None, "", "", "", "", "", ImageText(""), [EmptyRow(now)], DateObj(now));
    assert f.priceHistory[0].price == "";
    f
  }

  /** `new Date(value)`: ISO text and Dates keep their instant, `null` is the epoch, anything else is invalid. */
  function ToDate(d: DateValue): (r: DateValue)
    ensures r.DateObj? || r.InvalidDate?
    ensures d.DateObj? || d.IsoText? ==> r == DateObj(d.instant)
  {
    match d
    case DateObj(t) => DateObj(t)
    case IsoText(t) => DateObj(t)
    case NullDate => DateObj(0)
    case InvalidDate => InvalidDate
    case OtherText(_) => InvalidDate
  }

  /** The loaded image URL as the file input's value: `null` stays `null`. */
  function ImageFieldOf(image: Option<string>): ImageField
  {
    if image.Some? then ImageText(image.value) else NoImage
  }

  /** `setFormData({ ...formData, ... })` with the fields of the fetched product. */
  function Loaded(prev: UpdateForm, p: ProductRecord): (f: UpdateForm)
    ensures f.marketName == p.marketName && f.marketDescription == p.marketDescription
    ensures f.itemName == p.itemName && f.itemDescription == p.itemDescription
    ensures f.pricePerUnit == p.pricePerUnit && f.priceHistory == p.priceHistory
    ensures f.vendorName == p.vendorName && f.vendorEmail == p.vendorEmail
    ensures p.productImage.Some? ==> f.productImage == ImageText(p.productImage.value)
    ensures p.productImage.None? ==> f.productImage == NoImage
    ensures f.date == ToDate(p.date)
  {
    UpdateForm(p.vendorName, p.vendorEmail, p.marketName, p.marketDescription, p.itemName, p.itemDescription,
               p.pricePerUnit, ImageFieldOf(p.productImage), p.priceHistory, ToDate(p.date))
  }

  /** `value instanceof Date && !isNaN(value) ? value.toISOString() : value`. */
  function NormaliseDate(d: DateValue): (r: DateValue)
    ensures d.DateObj? ==> r == IsoText(d.instant)
    ensures !d.DateObj? ==> r == d
  {
    if d.DateObj? then IsoText(d.instant) else d
  }

  /** The patch body's history: every row's date normalised, prices and order kept. */
  function NormaliseRows(rows: seq<PriceRow>): (r: seq<PriceRow>)
    ensures |r| == |rows|
    ensures forall i :: 0 <= i < |rows| ==> r[i].price == rows[i].price && r[i].date == NormaliseDate(rows[i].date)
  {
    seq(|rows|, i requires 0 <= i < |rows| => rows[i].(date := NormaliseDate(rows[i].date)))
  }

  /** The image URL sent: the one the upload reported if a new file was chosen and uploaded, else the current one. */
  function SentImage(field: ImageField, current: Option<string>, upload: Option<string>): (r: Option<string>)
    ensures !field.ChosenFiles? ==> r == current
    ensures field.ChosenFiles? && upload.None? ==> r == current
    ensures field.ChosenFiles? && upload.Some? ==> r == upload
  {
    if field.ChosenFiles? && upload.Some? then upload else current
  }

  /** `formattedData`, the body of `PATCH /products/:id`: the form with the image and dates settled (and no status). */
  function PatchBody(f: UpdateForm, imageUrl: Option<string>, upload: Option<string>): (b: ProductRecord)
    ensures b.marketName == f.marketName && b.itemName == f.itemName && b.pricePerUnit == f.pricePerUnit
    ensures b.marketDescription == f.marketDescription && b.itemDescription == f.itemDescription
    ensures b.vendorName == f.vendorName && b.vendorEmail == f.vendorEmail && b.status.None?
    ensures b.productImage == SentImage(f.productImage, imageUrl, upload)
    ensures b.priceHistory == NormaliseRows(f.priceHistory) && b.date == NormaliseDate(f.date)
  {
    ProductRecord(f.marketName, f.marketDescription, f.itemName, f.itemDescription, f.pricePerUnit,
                  SentImage(f.productImage, imageUrl, upload), f.vendorName, f.vendorEmail, None,
                  NormaliseRows(f.priceHistory), NormaliseDate(f.date))
  }

  // ---------------------------------------------------------------------------------------------
  // Properties of the submission

  /** Normalising is idempotent: a history already sent once is sent unchanged. */
  lemma NormaliseRowsIdempotent(rows: seq<PriceRow>)
    ensures NormaliseRows(NormaliseRows(rows)) == NormaliseRows(rows)
  {
    var once := NormaliseRows(rows);
    forall i | 0 <= i < |rows| ensures NormaliseRows(once)[i] == once[i] {
      assert once[i].date == NormaliseDate(rows[i].date);
    }
  }

  /** After normalisation no row holds a Date object: each is ISO text or what the row held before. */
  lemma NormalisedHasNoDates(rows: seq<PriceRow>)
    ensures forall i :: 0 <= i < |rows| ==> !NormaliseRows(rows)[i].date.DateObj?
    ensures forall i :: 0 <= i < |rows| ==>
      (NormaliseRows(rows)[i].date.IsoText? <==> rows[i].date.DateObj? || rows[i].date.IsoText?)
  {
  }

  /** Submitting a product just loaded and left unedited sends back its own fields, with no status. */
  lemma UneditedRoundTrip(prev: UpdateForm, p: ProductRecord, upload: Option<string>)
    requires p.date.IsoText?
    requires forall i :: 0 <= i < |p.priceHistory| ==> !p.priceHistory[i].date.DateObj?
    ensures PatchBody(Loaded(prev, p), p.productImage, upload) == p.(status := None)
  {
    var f := Loaded(prev, p);
    assert NormaliseRows(f.priceHistory) == p.priceHistory;
  }

  /** The page's state: the fetched product, its current image URL and the form. */
  class UpdateProductPage {
    var product: Option<ProductRecord>
    var imageUrl: Option<string>
    var formData: UpdateForm

    /** Before the fetch completes the page shows the loader over the default form. */
    constructor(now: int)
      ensures product.None? && imageUrl.None? && formData == DefaultForm(now)
    {
      product := None;
      imageUrl := None;
      formData := DefaultForm(now);
    }

    /** The fetch succeeded: the product, its image URL and the form fields are set. */
    method Load(p: ProductRecord)
      modifies this
      ensures product == Some(p) && imageUrl == p.productImage
      ensures formData == Loaded(old(formData), p)
    {
      product := Some(p);
      imageUrl := p.productImage;
      formData := Loaded(formData, p);
    }

    /** The change handler of one of the text inputs. */
    method EditText(field: TextField, value: string)
      modifies this
      ensures product == old(product) && imageUrl == old(imageUrl)
      ensures formData == (match field
        case MarketName => old(formData).(marketName := value)
        case ItemName => old(formData).(itemName := value)
        case PricePerUnit => old(formData).(pricePerUnit := value))
    {
      match field
      case MarketName => formData := formData.(marketName := value);
      case ItemName => formData := formData.(itemName := value);
      case PricePerUnit => formData := formData.(pricePerUnit := value);
    }

    /** A file is chosen: `productImage` becomes the FileList. */
    method ChooseImage()
      modifies this
      ensures formData == old(formData).(productImage := ChosenFiles)
      ensures product == old(product) && imageUrl == old(imageUrl)
    {
      formData := formData.(productImage := ChosenFiles);
    }

    /** `handlePriceChange(index, field, value)`. */
    method HandlePriceChange(index: int, edit: RowEdit)
      requires 0 <= index < |formData.priceHistory|
      modifies this
      ensures formData == old(formData).(priceHistory := SetField(old(formData.priceHistory), index, edit))
      ensures product == old(product) && imageUrl == old(imageUrl)
    {
      formData := formData.(priceHistory := SetField(formData.priceHistory, index, edit));
    }

    /** `handleAddPriceRow`. */
    method HandleAddPriceRow(now: int)
      modifies this
      ensures formData == old(formData).(priceHistory := AppendEmptyRow(old(formData.priceHistory), now))
      ensures product == old(product) && imageUrl == old(imageUrl)
    {
      formData := formData.(priceHistory := AppendEmptyRow(formData.priceHistory, now));
    }

    /** `handleRemovePriceRow(index)`: a non-empty history stays non-empty. */
    method HandleRemovePriceRow(index: int)
      modifies this
      ensures formData == old(formData).(priceHistory := RemoveRow(old(formData.priceHistory), index))
      ensures old(formData.priceHistory) != [] ==> formData.priceHistory != []
      ensures product == old(product) && imageUrl == old(imageUrl)
    {
      formData := formData.(priceHistory := RemoveRow(formData.priceHistory, index));
    }

    /**
     * `onSubmit`: the patch body is sent and, whatever the server answers (its errors are caught),
     * the form is reset to the defaults; the product and image URL are left as they were.
     */
    method Submit(upload: Option<string>, now: int) returns (body: ProductRecord)
      modifies this
      ensures body == PatchBody(old(formData), old(imageUrl), upload)
      ensures formData == DefaultForm(now)
      ensures product == old(product) && imageUrl == old(imageUrl)
    {
      body := PatchBody(formData, imageUrl, upload);
      formData := DefaultForm(now);
    }
  }
}
