/** The vendor's "My Advertisements" page: the add/edit modal, its form, and what submitting it sends. */
module MyAdvertisements {
  import opened Common

  /** The form's `productImage`: a URL string, a chosen FileList, or missing (`undefined`/`null` from the server). */
  datatype AdImage = ImageUrl(url: string) | ImageFiles | MissingImage

  /** An advertisement as listed. */
  datatype Ad = Ad(id: string, adTitle: string, shortDescription: string, status: Option<string>, productImage: AdImage)

  /** The modal's `formData`. */
  datatype AdForm = AdForm(adTitle: string, shortDescription: string, status: Option<string>, productImage: AdImage)

  /** The named inputs `handleInputChange` serves. */
  datatype AdField = AdTitle | ShortDescription

  /** The body sent for an advertisement; `productImage` is `None` where it is `undefined`. */
  datatype AdPayload = AdPayload(adTitle: string, shortDescription: string, status: string,
                                 vendorName: Option<string>, vendorEmail: Option<string>, productImage: Option<AdImage>)

  /** `PATCH /advertisements/:id` for the ad being edited, `POST /advertisements` otherwise. */
  datatype AdRequest = UpdateAd(adId: string, payload: AdPayload) | CreateAd(payload: AdPayload)

  /** The initial `formData`. */
  function InitialForm(): AdForm
  {
    AdForm("", "", Some("pending"), ImageUrl(""))
  }

  /**
   * `imageUrl` after the upload step: a string is kept, a FileList is replaced by the uploaded URL
   * (and kept when the upload fails); `None` when indexing a missing image throws.
   */
  function ImageAfterUpload(image: AdImage, upload: Option<string>): (r: Option<AdImage>)
    ensures r.None? <==> image.MissingImage?
    ensures image.ImageUrl? ==> r == Some(image)
    ensures image.ImageFiles? ==> r == Some(if upload.Some? then ImageUrl(upload.value) else ImageFiles)
  {
    match image
    case ImageUrl(_) => Some(image)
    case ImageFiles => Some(if upload.Some? then ImageUrl(upload.value) else ImageFiles)
    case MissingImage => None
  }

  /** `imageUrl || currentAd?.productImage`: an empty URL falls back to the edited ad's image. */
  function SentImage(image: AdImage, currentAd: Option<Ad>): (r: Option<AdImage>)
    ensures image != ImageUrl("") ==> r == Some(image)
    ensures image == ImageUrl("") ==> r == (if currentAd.Some? then Some(currentAd.value.productImage) else None)
  {
    if image != ImageUrl("") then Some(image)
    else if currentAd.Some? then Some(currentAd.value.productImage)
    else None
  }

  /** `handleFormSubmit` up to the request; `None` when the upload step throws and nothing is sent. */
  function SubmitRequest(form: AdForm, currentAd: Option<Ad>, user: Option<User>, upload: Option<string>): (r: Option<AdRequest>)
    ensures r.None? <==> form.productImage.MissingImage?
    ensures r.Some? ==> (r.value.UpdateAd? <==> currentAd.Some?)
    ensures r.Some? && r.value.UpdateAd? ==> r.value.adId == currentAd.value.id
    ensures r.Some? ==>
      && r.value.payload.adTitle == form.adTitle
      && r.value.payload.shortDescription == form.shortDescription
      && r.value.payload.status == OrElse(form.status, "pending")
      && r.value.payload.vendorName == (if user.Some? then user.value.displayName else None)
      && r.value.payload.vendorEmail == (if user.Some? then user.value.email else None)
      && r.value.payload.productImage == SentImage(ImageAfterUpload(form.productImage, upload).value, currentAd)
  {
    var image := ImageAfterUpload(form.productImage, upload);
    if image.None? then None
    else
      var payload := AdPayload(form.adTitle, form.shortDescription, OrElse(form.status, "pending"),
                               if user.Some? then user.value.displayName else None,
                               if user.Some? then user.value.email else None,
                               SentImage(image.value, currentAd));
      Some(if currentAd.Some? then UpdateAd(currentAd.value.id, payload) else CreateAd(payload))
  }

  /** A form whose image is still a URL string is not re-uploaded: the upload outcome does not matter. */
  lemma StringImageNotUploaded(form: AdForm, currentAd: Option<Ad>, user: Option<User>, u1: Option<string>, u2: Option<string>)
    requires form.productImage.ImageUrl?
    ensures SubmitRequest(form, currentAd, user, u1) == SubmitRequest(form, currentAd, user, u2)
  {
  }

  /** Editing an ad without touching its image sends the ad's own image back (an empty one falls back to itself). */
  lemma EditKeepsImage(ad: Ad, user: Option<User>, upload: Option<string>)
    requires ad.productImage.ImageUrl?
    ensures var r := SubmitRequest(AdForm(ad.adTitle, ad.shortDescription, ad.status, ad.productImage), Some(ad), user, upload);
      r.Some? && r.value == UpdateAd(ad.id, r.value.payload) && r.value.payload.productImage == Some(ad.productImage)
  {
  }

  /** The page's state machine: modal visibility, the ad being edited and the form. */
  class AdEditor {
    var isModalOpen: bool
    var currentAd: Option<Ad>
    var formData: AdForm

    /** An ad is being edited only while the modal is open. */
    ghost predicate Valid()
      reads this
    {
      currentAd.Some? ==> isModalOpen
    }

    /** Modal closed, nothing being edited, empty title and description, status "pending". */
    constructor()
      ensures !isModalOpen && currentAd.None? && formData == InitialForm()
      ensures Valid()
    {
      isModalOpen := false;
      currentAd := None;
      formData := InitialForm();
    }

    /** `handleUpdate(ad)`: the ad's four fields fill the form, it becomes the current ad, and the modal opens. */
    method HandleUpdate(ad: Ad)
      modifies this
      ensures currentAd == Some(ad) && isModalOpen
      ensures formData == AdForm(ad.adTitle, ad.shortDescription, ad.status, ad.productImage)
      ensures Valid()
    {
      currentAd := Some(ad);
      formData := AdForm(ad.adTitle, ad.shortDescription, ad.status, ad.productImage);
      isModalOpen := true;
    }

    /** `handleInputChange`: only the field the input names changes. */
    method HandleInputChange(field: AdField, value: string)
      modifies this
      ensures field == AdTitle ==> formData == old(formData).(adTitle := value)
      ensures field == ShortDescription ==> formData == old(formData).(shortDescription := value)
      ensures isModalOpen == old(isModalOpen) && currentAd == old(currentAd)
      ensures old(Valid()) ==> Valid()
    {
      match field
      case AdTitle => formData := formData.(adTitle := value);
      case ShortDescription => formData := formData.(shortDescription := value);
    }

    /** `handleImageChange`: the image becomes the chosen FileList. */
    method HandleImageChange()
      modifies this
      ensures formData == old(formData).(productImage := ImageFiles)
      ensures isModalOpen == old(isModalOpen) && currentAd == old(currentAd)
      ensures old(Valid()) ==> Valid()
    {
      formData := formData.(productImage := ImageFiles);
    }

    /** `toggleModal`: visibility flips and the current ad is always cleared; the form is kept. */
    method ToggleModal()
      modifies this
      ensures isModalOpen == !old(isModalOpen) && currentAd.None?
      ensures formData == old(formData)
      ensures Valid()
    {
      isModalOpen := !isModalOpen;
      currentAd := None;
    }

    /**
     * `handleFormSubmit`: sends the request; when it succeeds the current ad is cleared and the
     * modal toggled, when anything throws both stay as they were. The form is never cleared.
     */
    method HandleFormSubmit(user: Option<User>, upload: Option<string>, requestOk: bool) returns (request: Option<AdRequest>)
      modifies this
      ensures request == SubmitRequest(old(formData), old(currentAd), user, upload)
      ensures request.Some? && requestOk ==> currentAd.None? && isModalOpen == !old(isModalOpen)
      ensures request.None? || !requestOk ==> currentAd == old(currentAd) && isModalOpen == old(isModalOpen)
      ensures formData == old(formData)
      ensures old(Valid()) ==> Valid()
    {
      request := SubmitRequest(formData, currentAd, user, upload);
      if request.Some? && requestOk {
        currentAd := None;
        ToggleModal();
      }
    }
  }
}
