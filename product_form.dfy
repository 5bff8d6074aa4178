/**
 * The seller's add / edit product form: its field updates (with the rule
 * that unchecking cash on delivery forces full online payment), the image
 * list with its previews, and the validation chain run on submit.
 */
module ProductForm {
  import opened Common

  datatype Dimensions = Dimensions(chest: string, length: string, sleeve: string)

  /**
   * The form state. Text inputs hold strings; the return period and the
   * online payment percentage are numbers, an empty number input reading as 0.
   */
  datatype ProductFormData = ProductFormData(
    name: string, category: string, quantity: string, price: string, description: string,
    images: seq<UploadFile>, sizes: seq<string>, colors: seq<string>,
    material: string, gender: string, brand: string, fit: string, careInstructions: string,
    isReturnable: bool, returnPeriod: int, dimensions: Dimensions, weight: string,
    isCashOnDeliveryAvailable: bool, onlinePaymentPercentage: int)

  /** The form a new product starts from. */
  const BlankForm: ProductFormData :=
    ProductFormData("", "", "", "", "", [], [], [], "", "", "", "", "",
                    false, 0, Dimensions("", "", ""), "", false, 100)

  /** A preview tile: the stored URL of an existing image, or an object URL made for a picked file. */
  datatype Preview = StoredUrl(url: string) | ObjectUrl(file: UploadFile)

  datatype TextField = Name | Category | Quantity | Price | Description | Material | Gender | Brand | Fit | CareInstructions | Weight
  datatype NumberField = ReturnPeriod | OnlinePaymentPercentage
  datatype CheckboxField = IsReturnable | IsCashOnDeliveryAvailable
  datatype DimensionField = Chest | Length | Sleeve

  /** The input events `handleChange` receives, by the input's name and type. */
  datatype FormChange =
    | TextInput(text: TextField, value: string)
    | NumberInput(number: NumberField, amount: int)
    | CheckboxInput(box: CheckboxField, checked: bool)
    | DimensionInput(dimension: DimensionField, value: string)

  function SetText(f: ProductFormData, field: TextField, v: string): ProductFormData
  {
    match field
    case Name => f.(name := v)
    case Category => f.(category := v)
    case Quantity => f.(quantity := v)
    case Price => f.(price := v)
    case Description => f.(description := v)
    case Material => f.(material := v)
    case Gender => f.(gender := v)
    case Brand => f.(brand := v)
    case Fit => f.(fit := v)
    case CareInstructions => f.(careInstructions := v)
    case Weight => f.(weight := v)
  }

  function SetDimension(d: Dimensions, field: DimensionField, v: string): Dimensions
  {
    match field
    case Chest => d.(chest := v)
    case Length => d.(length := v)
    case Sleeve => d.(sleeve := v)
  }

  /** The payment rule the submit chain enforces: with COD any percentage in [0, 100], without it exactly 100. */
  predicate PaymentRuleHolds(f: ProductFormData)
  {
    if f.isCashOnDeliveryAvailable then 0 <= f.onlinePaymentPercentage <= 100
    else f.onlinePaymentPercentage == 100
  }

  /** `handleChange`: the named field takes the value; unchecking COD also sets the percentage to 100. */
  function ApplyChange(f: ProductFormData, c: FormChange): (r: ProductFormData)
    ensures c == CheckboxInput(IsCashOnDeliveryAvailable, false) ==>
              !r.isCashOnDeliveryAvailable && r.onlinePaymentPercentage == 100 && PaymentRuleHolds(r)
    ensures c.DimensionInput? ==> r.(dimensions := f.dimensions) == f
    ensures c.TextInput? || c.DimensionInput? ==> r.images == f.images && r.onlinePaymentPercentage == f.onlinePaymentPercentage
    ensures c != CheckboxInput(IsCashOnDeliveryAvailable, false) && !(c.NumberInput? && c.number == OnlinePaymentPercentage) ==>
              r.onlinePaymentPercentage == f.onlinePaymentPercentage
  {
    match c
    case TextInput(field, v) => SetText(f, field, v)
    case NumberInput(field, v) =>
      (match field
       case ReturnPeriod => f.(returnPeriod := v)
       case OnlinePaymentPercentage => f.(onlinePaymentPercentage := v))
    case CheckboxInput(field, checked) =>
      (match field
       case IsReturnable => f.(isReturnable := checked)
       case IsCashOnDeliveryAvailable =>
         var newState := f.(isCashOnDeliveryAvailable := checked);
         if !checked then newState.(onlinePaymentPercentage := 100) else newState)
    case DimensionInput(field, v) => f.(dimensions := SetDimension(f.dimensions, field, v))
  }

  // ------------------------------------------------------------------ images

  datatype ImageError = UnsupportedType | TooLarge

  const MaxImageSize: nat := 5 * MiB

  /** The previews `handleImageChange` builds: one object URL per file, in order. */
  function ObjectUrls(files: seq<UploadFile>): (r: seq<Preview>)
    ensures |r| == |files|
    ensures forall i :: 0 <= i < |r| ==> r[i] == ObjectUrl(files[i])
  {
    if files == [] then [] else [ObjectUrl(files[0])] + ObjectUrls(files[1..])
  }

  /** The previews show, position by position, the picked images. */
  predicate PreviewsMatch(images: seq<UploadFile>, previews: seq<Preview>)
  {
    |previews| == |images| && forall i :: 0 <= i < |images| ==> previews[i] == ObjectUrl(images[i])
  }

  /** `handleImageChange`: the whole batch is refused if one file has the wrong type or is too large. */
  function AddImages(f: ProductFormData, files: seq<UploadFile>): (r: Result<ProductFormData, ImageError>)
    ensures r.Ok? <==> forall i :: 0 <= i < |files| ==> IsImageType(files[i]) && files[i].size <= MaxImageSize
    ensures r == Err(UnsupportedType) <==> exists i :: 0 <= i < |files| && !IsImageType(files[i])
    ensures r.Ok? ==> r.value == f.(images := f.images + files)
  {
    if exists i :: 0 <= i < |files| && !IsImageType(files[i]) then Err(UnsupportedType)
    else if exists i :: 0 <= i < |files| && files[i].size > MaxImageSize then Err(TooLarge)
    else Ok(f.(images := f.images + files))
  }

  /** After an accepted batch the previews match the images, whatever they showed before. */
  lemma AddImagesAligns(f: ProductFormData, files: seq<UploadFile>)
    requires AddImages(f, files).Ok?
    ensures PreviewsMatch(AddImages(f, files).value.images, ObjectUrls(f.images + files))
    ensures AddImages(f, files).value.images[..|f.images|] == f.images
  {
  }

  /** `removeImage(i)` removes position i from both lists and keeps them matched. */
  lemma RemoveImageKeepsMatch(images: seq<UploadFile>, previews: seq<Preview>, index: int)
    requires PreviewsMatch(images, previews)
    ensures PreviewsMatch(RemoveAt(images, index), RemoveAt(previews, index))
  {
    if 0 <= index < |images| {
      var a, b := RemoveAt(images, index), RemoveAt(previews, index);
      forall i | 0 <= i < |a| ensures b[i] == ObjectUrl(a[i]) {
        if i < index {
          assert a[i] == images[i] && b[i] == previews[i];
        } else {
          assert a[i] == images[i + 1] && b[i] == previews[i + 1];
        }
      }
    }
  }

  // ------------------------------------------------------------------ submit

  /** The twelve required fields are truthy: non-empty strings and non-empty lists. */
  predicate RequiredFilled(f: ProductFormData)
  {
    && f.name != "" && f.category != "" && f.quantity != "" && f.price != "" && f.description != ""
    && |f.sizes| > 0 && |f.colors| > 0
    && f.material != "" && f.gender != "" && f.brand != "" && f.fit != "" && f.careInstructions != ""
  }

  datatype SubmitError = MissingRequiredFields | InvalidReturnPeriod | MissingImage | PercentageOutOfRange | PercentageMustBeFull

  /** The early-return chain of `handleSubmit`: the first failed check, or None when the form may be sent. */
  function Validate(f: ProductFormData, isEditing: bool): (r: Option<SubmitError>)
    ensures r == None <==>
              RequiredFilled(f) && (f.isReturnable ==> f.returnPeriod > 0) && (isEditing || |f.images| > 0) && PaymentRuleHolds(f)
    ensures r == Some(MissingRequiredFields) <==> !RequiredFilled(f)
    ensures r == Some(InvalidReturnPeriod) <==> RequiredFilled(f) && f.isReturnable && f.returnPeriod <= 0
    ensures r == Some(MissingImage) <==>
              RequiredFilled(f) && (f.isReturnable ==> f.returnPeriod > 0) && !isEditing && |f.images| == 0
    ensures r == Some(PercentageOutOfRange) <==>
              RequiredFilled(f) && (f.isReturnable ==> f.returnPeriod > 0) && (isEditing || |f.images| > 0)
              && f.isCashOnDeliveryAvailable && !(0 <= f.onlinePaymentPercentage <= 100)
    ensures r == Some(PercentageMustBeFull) <==>
              RequiredFilled(f) && (f.isReturnable ==> f.returnPeriod > 0) && (isEditing || |f.images| > 0)
              && !f.isCashOnDeliveryAvailable && f.onlinePaymentPercentage != 100
  {
    if !RequiredFilled(f) then Some(MissingRequiredFields)
    // `!returnPeriod || returnPeriod <= 0`, with a missing period read as 0
    else if f.isReturnable && (f.returnPeriod == 0 || f.returnPeriod <= 0) then Some(InvalidReturnPeriod)
    else if !isEditing && |f.images| == 0 then Some(MissingImage)
    else if f.isCashOnDeliveryAvailable && (f.onlinePaymentPercentage < 0 || f.onlinePaymentPercentage > 100) then Some(PercentageOutOfRange)
    else if !f.isCashOnDeliveryAvailable && f.onlinePaymentPercentage != 100 then Some(PercentageMustBeFull)
    else None
  }

  datatype SubmitOutcome = Ignored | Rejected(error: SubmitError) | Sent

  /** Unchecking COD on any form leaves a form whose payment rule holds. */
  lemma UncheckingCodSatisfiesPaymentRule(f: ProductFormData)
    ensures PaymentRuleHolds(ApplyChange(f, CheckboxInput(IsCashOnDeliveryAvailable, false)))
    ensures Validate(ApplyChange(f, CheckboxInput(IsCashOnDeliveryAvailable, false)), true) != Some(PercentageMustBeFull)
  {
  }

  /** A new product cannot be sent before an image is added. */
  lemma NewProductNeedsImage(f: ProductFormData)
    requires |f.images| == 0
    ensures Validate(f, false) != None
  {
  }

  /** The add / edit product dialog. */
  class ProductFormView {
    var form: ProductFormData
    var imagePreviews: seq<Preview>
    var isSubmitting: bool
    /** Whether the dialog edits an existing product (`editingProduct` is set). */
    const isEditing: bool

    /** The dialog for a new product. */
    constructor ()
      ensures form == BlankForm && imagePreviews == [] && !isSubmitting && !isEditing
      ensures PaymentRuleHolds(form) && PreviewsMatch(form.images, imagePreviews)
    {
      form := BlankForm;
      imagePreviews := [];
      isSubmitting := false;
      isEditing := false;
    }

    method HandleChange(c: FormChange)
      modifies this
      ensures form == ApplyChange(old(form), c)
      ensures imagePreviews == old(imagePreviews) && isSubmitting == old(isSubmitting)
    {
      form := ApplyChange(form, c);
    }

    method HandleImageChange(files: seq<UploadFile>) returns (error: Option<ImageError>)
      modifies this
      ensures AddImages(old(form), files).Ok? <==> error == None
      ensures error == None ==> form == AddImages(old(form), files).value && imagePreviews == ObjectUrls(form.images)
      ensures error == None ==> PreviewsMatch(form.images, imagePreviews)
      ensures error != None ==> AddImages(old(form), files) == Err(error.value) && form == old(form) && imagePreviews == old(imagePreviews)
      ensures isSubmitting == old(isSubmitting)
    {
      match AddImages(form, files)
      case Err(e) =>
        error := Some(e);
      case Ok(updated) =>
        form := updated;
        imagePreviews := ObjectUrls(updated.images);
        error := None;
    }

    method RemoveImage(index: int)
      modifies this
      ensures form == old(form).(images := RemoveAt(old(form).images, index))
      ensures imagePreviews == RemoveAt(old(imagePreviews), index)
      ensures old(PreviewsMatch(form.images, imagePreviews)) ==> PreviewsMatch(form.images, imagePreviews)
      ensures isSubmitting == old(isSubmitting)
    {
      if PreviewsMatch(form.images, imagePreviews) {
        RemoveImageKeepsMatch(form.images, imagePreviews, index);
      }
      form := form.(images := RemoveAt(form.images, index));
      imagePreviews := RemoveAt(imagePreviews, index);
    }

    /**
     * The synchronous part of `handleSubmit`, up to the request: a submit while
     * one is in flight is ignored, an invalid form is rejected, and a valid
     * one is sent with the dialog marked busy.
     */
    method HandleSubmit() returns (outcome: SubmitOutcome)
      modifies this
      ensures old(isSubmitting) ==> outcome == Ignored
      ensures !old(isSubmitting) ==> outcome == (if Validate(form, isEditing) == None then Sent else Rejected(Validate(form, isEditing).value))
      ensures isSubmitting == (old(isSubmitting) || outcome == Sent)
      ensures form == old(form) && imagePreviews == old(imagePreviews)
    {
      if isSubmitting {
        return Ignored;
      }
      var check := Validate(form, isEditing);
      if check != None {
        return Rejected(check.value);
      }
      isSubmitting := true;
      outcome := Sent;
    }

    /** The `finally` after the request: the dialog is no longer busy. */
    method FinishSubmit()
      modifies this
      ensures !isSubmitting && form == old(form) && imagePreviews == old(imagePreviews)
    {
      isSubmitting := false;
    }
  }
}
