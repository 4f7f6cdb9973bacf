/**
 * The upload form (src/components/ProductUploadForm.tsx): four text inputs
 * for the identity fields and the submit handler that turns them into the
 * new product the page sends to the create route. The enrichable fields of
 * that product are fixed defaults; the comma-separated image field becomes
 * a list of trimmed URLs.
 */
module UploadForm {
  import opened Wrappers
  import opened Strings
  import opened ProductTypes

  /**
   * The image field as a list: empty for an empty field, and otherwise the
   * field split at every comma with each piece trimmed. Empty pieces are
   * kept, so "a," gives "a" and "".
   */
  function ParseImages(s: string): (urls: seq<string>)
    ensures s == "" ==> urls == []
    ensures s != "" ==> |urls| == Count(s, ',') + 1
    ensures forall i :: 0 <= i < |urls| ==> ',' !in urls[i] && Trimmed(urls[i])
  {
    if s == "" then []
    else
      var pieces := Split(s, ',');
      SplitShape(s, ',');
      forall i | 0 <= i < |pieces|
        ensures ',' !in Trim(pieces[i]) && Trimmed(Trim(pieces[i]))
      {
        TrimKeepsOut(pieces[i], ',');
        TrimIdempotent(pieces[i]);
      }
      seq(|pieces|, i requires 0 <= i < |pieces| => Trim(pieces[i]))
  }

  /** Comma-free pieces typed into the field joined by commas come back trimmed. */
  lemma ParseImagesOfJoin(pieces: seq<string>)
    requires |pieces| >= 1 && Join(pieces, ',') != ""
    requires forall p :: p in pieces ==> ',' !in p
    ensures ParseImages(Join(pieces, ',')) == seq(|pieces|, i requires 0 <= i < |pieces| => Trim(pieces[i]))
  {
    SplitJoin(pieces, ',');
  }

  /**
   * URLs without commas or surrounding whitespace, typed into the field
   * joined by commas, come back as they were; the one list that does not is
   * a single empty URL, since its join is the empty field.
   */
  lemma ParseImagesJoin(urls: seq<string>)
    requires |urls| >= 1 && Join(urls, ',') != ""
    requires forall i :: 0 <= i < |urls| ==> ',' !in urls[i] && Trimmed(urls[i])
    ensures ParseImages(Join(urls, ',')) == urls
  {
    ParseImagesOfJoin(urls);
    forall i | 0 <= i < |urls|
      ensures Trim(urls[i]) == urls[i]
    {
      TrimTrimmed(urls[i]);
    }
  }

  /** A trailing comma leaves an empty URL at the end of the list. */
  lemma ParseImagesTrailingComma(s: string)
    requires ',' !in s
    ensures ParseImages(s + ",") == [Trim(s), ""]
  {
    var pieces := [s, ""];
    assert Join(pieces, ',') == s + ",";
    ParseImagesOfJoin(pieces);
    TrimTrimmed("");
    var urls := ParseImages(s + ",");
    assert |urls| == 2 && urls[0] == Trim(s) && urls[1] == "";
    PairOf(urls, Trim(s), "");
  }

  /** A two-element list is its two elements. */
  lemma PairOf(xs: seq<string>, a: string, b: string)
    requires |xs| == 2 && xs[0] == a && xs[1] == b
    ensures xs == [a, b]
  {
  }

  /** The four text inputs. */
  datatype FormField = ProductNameField | BrandField | ImagesField | BarcodeField

  /**
   * The product a submission sends: the name, brand and barcode as typed
   * (an untouched barcode field sends the empty string), the parsed images,
   * empty text for the description, colour and material, no ingredients or
   * storage, and null for every number and Measure. The image list is always
   * there: empty exactly for an empty field, and otherwise made of URLs
   * without commas or surrounding whitespace.
   */
  function NewProduct(productName: string, brand: string, images: string, barcode: string): (p: ProductCreate)
    ensures p.images.Some? && (images == "" <==> p.images.value == [])
    ensures forall i :: 0 <= i < |p.images.value| ==> ',' !in p.images.value[i] && Trimmed(p.images.value[i])
  {
    ProductCreate(
      productName := productName,
      brand := brand,
      images := Some(ParseImages(images)),
      barcode := Some(barcode),
      itemWeight := None,
      ingredients := [],
      description := Some(""),
      storage := [],
      itemsPerPack := None,
      color := Some(""),
      material := Some(""),
      width := None,
      height := None,
      warranty := None)
  }

  /**
   * A submitted product carries the name, brand and barcode exactly as typed,
   * empty text for the description, colour and material, and nothing else
   * the form does not ask for.
   */
  lemma SubmittedProductShape(productName: string, brand: string, images: string, barcode: string)
    ensures var p := NewProduct(productName, brand, images, barcode);
      && p.productName == productName && p.brand == brand && p.barcode == Some(barcode)
      && p.description == Some("") && p.color == Some("") && p.material == Some("")
      && p.itemWeight == None && p.width == None && p.height == None
      && p.itemsPerPack == None && p.warranty == None
      && p.ingredients == [] && p.storage == []
  {
  }

  /** The form's state: the text of its four inputs. */
  class Form {
    var productName: string
    var brand: string
    var images: string
    var barcode: string

    /** Every input starts empty. */
    constructor ()
      ensures productName == "" && brand == "" && images == "" && barcode == ""
    {
      productName, brand, images, barcode := "", "", "", "";
    }

    /** Typing `value` into one input: `setFormData({ ...formData, [field]: value })`. */
    method Change(field: FormField, value: string)
      modifies this
      ensures productName == (if field == ProductNameField then value else old(productName))
      ensures brand == (if field == BrandField then value else old(brand))
      ensures images == (if field == ImagesField then value else old(images))
      ensures barcode == (if field == BarcodeField then value else old(barcode))
    {
      match field
      case ProductNameField => productName := value;
      case BrandField => brand := value;
      case ImagesField => images := value;
      case BarcodeField => barcode := value;
    }

    /** `handleSubmit`: the product built from the inputs is handed to `onSubmit`, and the inputs are cleared. */
    method HandleSubmit() returns (p: ProductCreate)
      modifies this
      ensures p == NewProduct(old(productName), old(brand), old(images), old(barcode))
      ensures productName == "" && brand == "" && images == "" && barcode == ""
    {
      p := NewProduct(productName, brand, images, barcode);
      productName, brand, images, barcode := "", "", "", "";
    }
  }
}
