/**
 * The admin product form (`ProductForm`): the four field rules of its schema, the
 * image-type check, the drag highlight, and the submit sequence around an abstract
 * upload whose outcome is an input. Reading the image into a preview and the upload
 * itself are browser I/O; the preview arrives through `PreviewLoaded`.
 */
module ProductForm {
  import opened Wrappers
  import opened Notify
  import Text
  import JsNumber

  datatype Values = Values(name: string, price: string, description: string, quantity: string)

  /** The form's default values: every field empty. */
  function Blank(): Values
  {
    Values("", "", "", "")
  }

  /**
   * A string's `length` in JavaScript: UTF-16 code units, two for a character outside
   * the Basic Multilingual Plane.
   */
  function Utf16Length(s: string): (n: nat)
    ensures |s| <= n <= 2 * |s|
  {
    if s == [] then 0 else (if s[0] as int > 0xFFFF then 2 else 1) + Utf16Length(s[1..])
  }

  // ---------------------------------------------------------------------------
  // The schema

  predicate NameValid(name: string)
  {
    Utf16Length(name) >= 2
  }

  predicate PriceValid(price: string)
  {
    var n := JsNumber.ToNumber(price);
    !n.NaN? && JsNumber.Positive(n)
  }

  predicate DescriptionValid(description: string)
  {
    Utf16Length(description) >= 10
  }

  predicate QuantityValid(quantity: string)
  {
    var n := JsNumber.ToNumber(quantity);
    !n.NaN? && JsNumber.NonNegative(n)
  }

  predicate Valid(v: Values)
  {
    NameValid(v.name) && PriceValid(v.price) && DescriptionValid(v.description) && QuantityValid(v.quantity)
  }

  datatype Field = Name | Price | Description | Quantity

  /** The schema's message for a field that fails its rule. */
  function Message(field: Field): string
  {
    match field
    case Name => "Product name must be at least 2 characters."
    case Price => "Price must be a valid positive number."
    case Description => "Description must be at least 10 characters."
    case Quantity => "Quantity must be a valid non-negative number."
  }

  /** The fields that fail, in form order, from the outcome of each rule. */
  function Failing(nameOk: bool, priceOk: bool, descriptionOk: bool, quantityOk: bool): (r: seq<Field>)
    ensures r == [] <==> nameOk && priceOk && descriptionOk && quantityOk
    ensures Name in r <==> !nameOk
    ensures Price in r <==> !priceOk
    ensures Description in r <==> !descriptionOk
    ensures Quantity in r <==> !quantityOk
  {
    (if nameOk then [] else [Name])
    + (if priceOk then [] else [Price])
    + (if descriptionOk then [] else [Description])
    + (if quantityOk then [] else [Quantity])
  }

  /** The schema's verdict on the values: the fields that fail. */
  function Errors(v: Values): (r: seq<Field>)
    ensures r == [] <==> Valid(v)
    ensures Name in r <==> !NameValid(v.name)
    ensures Price in r <==> !PriceValid(v.price)
    ensures Description in r <==> !DescriptionValid(v.description)
    ensures Quantity in r <==> !QuantityValid(v.quantity)
  {
    Failing(NameValid(v.name), PriceValid(v.price), DescriptionValid(v.description), QuantityValid(v.quantity))
  }

  /** An empty price converts to 0, which is not positive: the blank form's price is refused. */
  lemma EmptyPriceRejected()
    ensures !PriceValid("")
  {
    JsNumber.BlankIsZero("");
  }

  /** An empty quantity converts to 0, which is allowed. */
  lemma EmptyQuantityAccepted()
    ensures QuantityValid("")
  {
    JsNumber.BlankIsZero("");
  }

  /** A whole number typed as digits is a valid price exactly when it is above 0, and always a valid quantity. */
  lemma WholeNumberRules(n: nat)
    ensures PriceValid(Text.NatToString(n)) <==> n > 0
    ensures QuantityValid(Text.NatToString(n))
  {
    JsNumber.NumberOfNatToString(n);
  }

  /** A negative whole number is never a price, and a quantity only when it is minus zero. */
  lemma NegativeNumberRules(n: nat)
    ensures !PriceValid("-" + Text.NatToString(n))
    ensures QuantityValid("-" + Text.NatToString(n)) <==> n == 0
  {
    JsNumber.NumberOfNegated(n);
  }

  /** "Infinity" passes the price rule, and a decimal comma fails it. */
  lemma PriceRuleEdges()
    ensures PriceValid("Infinity")
    ensures !PriceValid("1,5")
  {
    JsNumber.InfinityIsANumber();
    JsNumber.DecimalCommaIsNaN();
  }

  /** One character outside the Basic Multilingual Plane already counts as two for the name rule. */
  lemma AstralCharacterIsLongEnough()
    ensures NameValid("\U{1F355}")
  {
  }

  // ---------------------------------------------------------------------------
  // The image and the form state

  datatype ImageFile = ImageFile(name: string, mimeType: string)

  /** `file.type.startsWith("image/")`. */
  predicate IsImage(file: ImageFile)
  {
    Text.StartsWith(file.mimeType, "image/")
  }

  const InvalidFileToast: Toast := Toast(true, "Invalid file type", "Please upload an image file.")
  const CreatedToast: Toast := Toast(false, "Product created successfully", "Your product has been added to the catalog.")
  const FailedToast: Toast := Toast(true, "Error", "Something went wrong. Please try again.")

  /** The fields of the upload, in the order they are appended; the image only if one is chosen. */
  datatype Entry = TextEntry(key: string, value: string) | FileEntry(key: string, file: ImageFile)

  function Payload(v: Values, image: Option<ImageFile>): (r: seq<Entry>)
    ensures |r| == if image.Some? then 5 else 4
    ensures r[..4] == [TextEntry("name", v.name), TextEntry("price", v.price),
                       TextEntry("description", v.description), TextEntry("quantity", v.quantity)]
  {
    [TextEntry("name", v.name), TextEntry("price", v.price),
     TextEntry("description", v.description), TextEntry("quantity", v.quantity)]
    + (if image.Some? then [FileEntry("image", image.value)] else [])
  }

  class Form {
    var values: Values
    var isLoading: bool
    var imageFile: Option<ImageFile>
    var imagePreview: Option<string>
    var isDragging: bool

    constructor ()
      ensures values == Blank() && !isLoading && imageFile.None? && imagePreview.None? && !isDragging
    {
      values, isLoading, imageFile, imagePreview, isDragging := Blank(), false, None, None, false;
    }

    /** A keystroke in a field. */
    method Edit(v: Values)
      modifies this
      ensures values == v
      ensures isLoading == old(isLoading) && imageFile == old(imageFile)
      ensures imagePreview == old(imagePreview) && isDragging == old(isDragging)
    {
      values := v;
    }

    /** `handleFile`: an image becomes the chosen file; anything else is refused with a notice. */
    method HandleFile(file: ImageFile) returns (toast: Option<Toast>)
      modifies this
      ensures IsImage(file) ==> imageFile == Some(file) && toast.None?
      ensures !IsImage(file) ==> imageFile == old(imageFile) && toast == Some(InvalidFileToast)
      ensures values == old(values) && isLoading == old(isLoading)
      ensures imagePreview == old(imagePreview) && isDragging == old(isDragging)
    {
      if Text.StartsWith(file.mimeType, "image/") {
        imageFile := Some(file);
        toast := None;
      } else {
        toast := Some(InvalidFileToast);
      }
    }

    /** The file reader finished: its data URL becomes the preview. */
    method PreviewLoaded(dataUrl: string)
      modifies this
      ensures imagePreview == Some(dataUrl)
      ensures values == old(values) && isLoading == old(isLoading)
      ensures imageFile == old(imageFile) && isDragging == old(isDragging)
    {
      imagePreview := Some(dataUrl);
    }

    method DragIn()
      modifies this
      ensures isDragging
      ensures values == old(values) && isLoading == old(isLoading)
      ensures imageFile == old(imageFile) && imagePreview == old(imagePreview)
    {
      isDragging := true;
    }

    method DragOut()
      modifies this
      ensures !isDragging
      ensures values == old(values) && isLoading == old(isLoading)
      ensures imageFile == old(imageFile) && imagePreview == old(imagePreview)
    {
      isDragging := false;
    }

    /** `handleDrop`: the highlight goes off, then the first dropped file, if any, is handled. */
    method Drop(file: Option<ImageFile>) returns (toast: Option<Toast>)
      modifies this
      ensures !isDragging
      ensures file.Some? && IsImage(file.value) ==> imageFile == file && toast.None?
      ensures file.Some? && !IsImage(file.value) ==> imageFile == old(imageFile) && toast == Some(InvalidFileToast)
      ensures file.None? ==> imageFile == old(imageFile) && toast.None?
      ensures values == old(values) && isLoading == old(isLoading) && imagePreview == old(imagePreview)
    {
      isDragging := false;
      if file.Some? {
        toast := HandleFile(file.value);
      } else {
        toast := None;
      }
    }

    /** The "Remove image" button. */
    method RemoveImage()
      modifies this
      ensures imageFile.None? && imagePreview.None?
      ensures values == old(values) && isLoading == old(isLoading) && isDragging == old(isDragging)
    {
      imageFile := None;
      imagePreview := None;
    }

    /**
     * `onSubmit` with the upload's outcome given: the upload carries the values and the
     * chosen image; loading is off afterwards whatever happened; only success resets
     * the values and the image.
     */
    method OnSubmit(uploadOk: bool) returns (sent: seq<Entry>, toast: Toast)
      modifies this
      ensures sent == Payload(old(values), old(imageFile))
      ensures !isLoading && isDragging == old(isDragging)
      ensures uploadOk ==> values == Blank() && imageFile.None? && imagePreview.None? && toast == CreatedToast
      ensures !uploadOk ==>
        values == old(values) && imageFile == old(imageFile) && imagePreview == old(imagePreview) && toast == FailedToast
    {
      isLoading := true;
      sent := Payload(values, imageFile);
      if uploadOk {
        toast := CreatedToast;
        values := Blank();
        imageFile := None;
        imagePreview := None;
      } else {
        toast := FailedToast;
      }
      isLoading := false;
    }

    /**
     * The form's submit: the schema is checked first; with any failing field those
     * fields are returned and nothing is sent, otherwise `OnSubmit` runs.
     */
    method Submit(uploadOk: bool) returns (errors: seq<Field>, sent: Option<seq<Entry>>, toast: Option<Toast>)
      modifies this
      ensures errors == Errors(old(values))
      ensures errors != [] ==>
        && sent.None? && toast.None? && values == old(values) && imageFile == old(imageFile)
        && imagePreview == old(imagePreview) && isLoading == old(isLoading)
      ensures errors == [] ==> sent == Some(Payload(old(values), old(imageFile))) && !isLoading
      ensures errors == [] && uploadOk ==> values == Blank() && imageFile.None? && toast == Some(CreatedToast)
      ensures errors == [] && !uploadOk ==> values == old(values) && toast == Some(FailedToast)
      ensures isDragging == old(isDragging)
    {
      errors := Errors(values);
      if errors != [] {
        sent, toast := None, None;
        return;
      }
      var payload, shown := OnSubmit(uploadOk);
      sent, toast := Some(payload), Some(shown);
    }
  }

  /** The blank form cannot be sent: its name, price and description fail. */
  lemma BlankFormRefused()
    ensures Errors(Blank()) == [Name, Price, Description]
  {
    EmptyPriceRejected();
    EmptyQuantityAccepted();
    assert !NameValid("") && !DescriptionValid("");
    assert Errors(Blank()) == Failing(false, false, false, true);
  }
}
