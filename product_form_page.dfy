/** The product form page: create a product, or edit the one named by the
    route's `id`, with an image uploaded to an asset host before saving. */
module ProductFormPage {
  import opened JsValues

  /** The five text inputs of the form, by their `name` attribute. */
  datatype Field = Code | Name | Description | OriginalPrice | SalePrice

  /** The form's `product` state: every field is the input's text. */
  datatype ProductFields = ProductFields(
    code: string,
    name: string,
    description: string,
    originalPrice: string,
    salePrice: string)

  const EmptyProduct := ProductFields("", "", "", "", "")

  function Get(p: ProductFields, f: Field): string {
    match f
    case Code => p.code
    case Name => p.name
    case Description => p.description
    case OriginalPrice => p.originalPrice
    case SalePrice => p.salePrice
  }

  /** `{ ...p, [f]: v }`: the named field takes the new text, every other
      field keeps its own. */
  function With(p: ProductFields, f: Field, v: string): (q: ProductFields)
    ensures Get(q, f) == v
    ensures forall g :: g != f ==> Get(q, g) == Get(p, g)
  {
    match f
    case Code => p.(code := v)
    case Name => p.(name := v)
    case Description => p.(description := v)
    case OriginalPrice => p.(originalPrice := v)
    case SalePrice => p.(salePrice := v)
  }

  /** Records are equal when all five fields are. */
  lemma FieldsDetermineProduct(p: ProductFields, q: ProductFields)
    requires forall f :: Get(p, f) == Get(q, f)
    ensures p == q
  {
    assert Get(p, Code) == Get(q, Code) && Get(p, Name) == Get(q, Name);
    assert Get(p, Description) == Get(q, Description);
    assert Get(p, OriginalPrice) == Get(q, OriginalPrice) && Get(p, SalePrice) == Get(q, SalePrice);
  }

  /** Typing a field's current text again changes nothing, and the last of
      two edits to one field wins. */
  lemma EditLaws(p: ProductFields, f: Field, v: string, w: string)
    ensures With(p, f, Get(p, f)) == p
    ensures With(With(p, f, v), f, w) == With(p, f, w)
  {
    FieldsDetermineProduct(With(p, f, Get(p, f)), p);
    FieldsDetermineProduct(With(With(p, f, v), f, w), With(p, f, w));
  }

  // ---------------------------------------------------------------------
  // Loading an existing product

  /** `res.data.product` as the backend sends it; any field may be missing. */
  datatype FetchedProduct = FetchedProduct(
    code: Option<string>,
    name: Option<string>,
    description: Option<string>,
    originalPrice: Option<int>,
    salePrice: Option<int>,
    image: Option<string>)

  /** `price?.toString() || ""`. */
  function PriceText(price: Option<int>): string {
    match price
    case None => ""
    case Some(n) => IntToString(n)
  }

  /** A fetched product as form text: a missing or empty string field
      becomes "", a price becomes its decimal text. */
  function Normalise(p: FetchedProduct): (r: ProductFields)
    ensures r.code == OrEmpty(p.code) && r.name == OrEmpty(p.name) && r.description == OrEmpty(p.description)
    ensures r.originalPrice == "" <==> p.originalPrice.None?
    ensures r.salePrice == "" <==> p.salePrice.None?
  {
    ProductFields(OrEmpty(p.code), OrEmpty(p.name), OrEmpty(p.description),
                  PriceText(p.originalPrice), PriceText(p.salePrice))
  }

  /** A fetched price survives as text: reading the form's price field back
      gives the backend's number (a zero price becomes "0", not ""). */
  lemma NormalisedPriceRoundTrip(p: FetchedProduct)
    ensures p.originalPrice.Some? ==> ParseInt(Normalise(p).originalPrice) == p.originalPrice
    ensures p.salePrice.Some? ==> ParseInt(Normalise(p).salePrice) == p.salePrice
  {
    if p.originalPrice.Some? {
      IntToStringRoundTrip(p.originalPrice.value);
    }
    if p.salePrice.Some? {
      IntToStringRoundTrip(p.salePrice.value);
    }
  }

  // ---------------------------------------------------------------------
  // Validation, payload, button

  /** Code, name and original price must be non-empty; description and
      sale price may be left empty. */
  predicate HasRequired(p: ProductFields) {
    p.code != "" && p.name != "" && p.originalPrice != ""
  }

  /** Only the code, name and original price fields can make a product fail
      validation, and clearing any one of them does. */
  lemma RequiredFields(p: ProductFields, v: string)
    ensures HasRequired(With(p, Description, v)) == HasRequired(p)
    ensures HasRequired(With(p, SalePrice, v)) == HasRequired(p)
    ensures !HasRequired(With(p, Code, "")) && !HasRequired(With(p, Name, ""))
    ensures !HasRequired(With(p, OriginalPrice, ""))
  {
  }

  /** A product loaded with a code, a name and any original price, zero
      included, passes validation. */
  lemma LoadedProductValid(p: FetchedProduct)
    requires Truthy(p.code) && Truthy(p.name) && p.originalPrice.Some?
    ensures HasRequired(Normalise(p))
  {
  }

  /** The JSON body of the save request: the product's fields plus
      `imageUrl`, which is null unless an image URL is held. */
  datatype Payload = Payload(
    code: string,
    name: string,
    description: string,
    originalPrice: string,
    salePrice: string,
    imageUrl: Option<string>)

  function BuildPayload(p: ProductFields, imageUrl: Option<string>): (r: Payload)
    ensures r.imageUrl.None? <==> !Truthy(imageUrl)
    ensures r.imageUrl.Some? ==> r.imageUrl == imageUrl
  {
    Payload(p.code, p.name, p.description, p.originalPrice, p.salePrice, OrNull(imageUrl))
  }

  /** The fields of a payload, without the image. */
  function FieldsOf(q: Payload): ProductFields {
    ProductFields(q.code, q.name, q.description, q.originalPrice, q.salePrice)
  }

  /** The payload carries the form's fields unchanged. */
  lemma PayloadCarriesFields(p: ProductFields, imageUrl: Option<string>)
    ensures FieldsOf(BuildPayload(p, imageUrl)) == p
    ensures forall f :: Get(FieldsOf(BuildPayload(p, imageUrl)), f) == Get(p, f)
  {
  }

  datatype SubmitButton = SubmitButton(disabled: bool, text: string)

  const SavingLabel := "Saving..."
  const UploadingLabel := "Uploading..."

  function ButtonFor(loading: bool, uploading: bool, id: Option<string>): SubmitButton {
    SubmitButton(
      loading || uploading,
      if loading then SavingLabel
      else if uploading then UploadingLabel
      else if Truthy(id) then "Update Product"
      else "Add Product")
  }

  /** The button is disabled exactly while it shows a busy label; saving
      takes precedence over uploading, and an idle button names the action
      the route selects. */
  lemma ButtonStates(loading: bool, uploading: bool, id: Option<string>)
    ensures var b := ButtonFor(loading, uploading, id);
      b.disabled <==> b.text in {SavingLabel, UploadingLabel}
    ensures var b := ButtonFor(loading, uploading, id);
      (b.text == SavingLabel <==> loading) && (b.text == UploadingLabel <==> uploading && !loading)
    ensures var b := ButtonFor(loading, uploading, id);
      !b.disabled ==> (b.text == "Update Product" <==> Truthy(id))
  {
  }

  /** The page heading. */
  function Title(id: Option<string>): string {
    if Truthy(id) then "Update Product" else "Add New Product"
  }

  // ---------------------------------------------------------------------
  // The component

  /** A file chosen in the file input; `objectUrl` stands for what
      `URL.createObjectURL` gives for it. */
  datatype ImageFile = ImageFile(size: nat, objectUrl: string)

  /** 500 KB. */
  const MaxImageSize: nat := 500 * 1024

  datatype Request =
    | GetProduct(id: string)                   // GET /admin/products/{id}
    | UploadImage(file: ImageFile)             // POST to the asset host
    | PutProduct(id: string, body: Payload)    // PUT /admin/products/{id}
    | PostProduct(body: Payload)               // POST /admin/products

  datatype Effect = Send(request: Request) | Alert(message: string) | Navigate(path: string)

  datatype FetchOutcome = Fetched(product: FetchedProduct) | FetchFailed
  datatype UploadOutcome = Uploaded(secureUrl: string) | UploadFailed
  /** A failed save may carry the server's `message`. */
  datatype SaveOutcome = Saved | SaveFailed(serverMessage: Option<string>)

  const LoadFailedAlert := "Failed to load product data."
  const TooLargeAlert := "Image too large. Please choose one under 500KB."
  const UploadFailedAlert := "Image upload failed. Please try again."
  const RequiredAlert := "Code, Name and Original Price are required."
  const SaveFailedAlert := "Failed to save product."

  /** The request a valid submit sends: an update with a route id, a
      creation otherwise. */
  function SaveRequest(id: Option<string>, body: Payload): (r: Request)
    ensures r.PutProduct? <==> Truthy(id)
    ensures r.PutProduct? ==> r.id == id.value && r.body == body
    ensures r.PostProduct? ==> r.body == body
  {
    if Truthy(id) then PutProduct(id.value, body) else PostProduct(body)
  }

  /** The heading and the idle button name the request a save sends: both
      say "Update Product" exactly when the save is a PUT; otherwise the
      heading says "Add New Product" and the button "Add Product". */
  lemma TitleNamesRequest(id: Option<string>, body: Payload)
    ensures Title(id) == "Update Product" <==> SaveRequest(id, body).PutProduct?
    ensures ButtonFor(false, false, id).text == "Update Product" <==> SaveRequest(id, body).PutProduct?
    ensures Title(id) == ButtonFor(false, false, id).text <==> Truthy(id)
  {
  }

  /** The alert after a failed save: the server's message, or a default. */
  function SaveFailedMessage(serverMessage: Option<string>): (m: string)
    ensures m != ""
    ensures Truthy(serverMessage) ==> m == serverMessage.value
  {
    if Truthy(serverMessage) then serverMessage.value else SaveFailedAlert
  }

  class ProductFormPage {
    const id: Option<string>
    var loading: bool
    var uploading: bool
    var preview: Option<string>
    var imageUrl: Option<string>
    var product: ProductFields

    constructor (id: Option<string>)
      ensures this.id == id
      ensures !loading && !uploading && preview.None? && imageUrl.None? && product == EmptyProduct
      ensures !Button().disabled && Button().text == (if Truthy(id) then "Update Product" else "Add Product")
    {
      this.id := id;
      loading, uploading := false, false;
      preview, imageUrl := None, None;
      product := EmptyProduct;
    }

    /** The submit button in the page's present state. */
    function Button(): SubmitButton
      reads this
    {
      ButtonFor(loading, uploading, id)
    }

    /** The load effect for the route's id: without an id nothing happens;
        with one, a success replaces the form with the normalised product
        (and the image, when the product has one), and a failure alerts and
        changes nothing. */
    method LoadProduct(response: FetchOutcome) returns (effects: seq<Effect>)
      modifies this
      ensures !Truthy(id) ==> effects == [] && product == old(product)
      ensures Truthy(id) ==> |effects| >= 1 && effects[0] == Send(GetProduct(id.value))
      ensures Truthy(id) && response.Fetched? ==>
                effects == [Send(GetProduct(id.value))] && product == Normalise(response.product)
      ensures Truthy(id) && response.FetchFailed? ==>
                effects == [Send(GetProduct(id.value)), Alert(LoadFailedAlert)] && product == old(product)
      ensures Truthy(id) && response.Fetched? && Truthy(response.product.image) ==>
                preview == imageUrl == response.product.image
      ensures !(Truthy(id) && response.Fetched? && Truthy(response.product.image)) ==>
                preview == old(preview) && imageUrl == old(imageUrl)
      ensures loading == old(loading) && uploading == old(uploading)
    {
      if !Truthy(id) {
        return [];
      }
      effects := [Send(GetProduct(id.value))];
      match response {
        case Fetched(p) =>
          product := Normalise(p);
          if Truthy(p.image) {
            preview := p.image;
            imageUrl := p.image;
          }
        case FetchFailed =>
          effects := effects + [Alert(LoadFailedAlert)];
      }
    }

    /** Typing into an input: only the named field changes. */
    method HandleChange(f: Field, v: string)
      modifies this
      ensures product == With(old(product), f, v)
      ensures loading == old(loading) && uploading == old(uploading)
      ensures preview == old(preview) && imageUrl == old(imageUrl)
    {
      product := With(product, f, v);
    }

    /** Choosing an image: no file, or one over 500 KB, changes nothing (the
        latter alerts). Otherwise the preview shows the file, it is uploaded,
        and `imageUrl` takes the uploaded URL only on success; `uploading` is
        false once the attempt is over, whatever its outcome. */
    method HandleImageChange(file: Option<ImageFile>, upload: UploadOutcome) returns (effects: seq<Effect>)
      modifies this
      ensures file.None? ==> effects == []
      ensures file.Some? && file.value.size > MaxImageSize ==> effects == [Alert(TooLargeAlert)]
      ensures file.None? || file.value.size > MaxImageSize ==>
                preview == old(preview) && imageUrl == old(imageUrl) && uploading == old(uploading)
      ensures file.Some? && file.value.size <= MaxImageSize ==>
                && preview == Some(file.value.objectUrl)
                && !uploading
                && effects == [Send(UploadImage(file.value))] +
                              (if upload.UploadFailed? then [Alert(UploadFailedAlert)] else [])
                && Button().text != UploadingLabel
                && imageUrl == if upload.Uploaded? then Some(upload.secureUrl) else old(imageUrl)
      ensures product == old(product) && loading == old(loading)
    {
      if file.None? {
        return [];
      }
      var f := file.value;
      if f.size > MaxImageSize {
        return [Alert(TooLargeAlert)];
      }
      preview := Some(f.objectUrl);
      uploading := true;
      effects := [Send(UploadImage(f))];
      match upload {
        case Uploaded(url) =>
          imageUrl := Some(url);
        case UploadFailed =>
          effects := effects + [Alert(UploadFailedAlert)];
      }
      uploading := false;
    }

    /** Saving: a form missing its code, name or original price only
        alerts. Otherwise the payload goes out as an update (with a route
        id) or a creation, the page navigates to the dashboard only after a
        success, a failure alerts, and `loading` is false afterwards. */
    method HandleSubmit(save: SaveOutcome) returns (effects: seq<Effect>)
      modifies this
      ensures !HasRequired(old(product)) ==> effects == [Alert(RequiredAlert)] && loading == old(loading)
      ensures HasRequired(old(product)) ==>
                && !loading
                && |effects| == 2
                && effects[0] == Send(SaveRequest(id, BuildPayload(old(product), old(imageUrl))))
                && Button().text != SavingLabel
                && effects[1] == if save.Saved? then Navigate("/dashboard")
                                 else Alert(SaveFailedMessage(save.serverMessage))
      ensures product == old(product) && imageUrl == old(imageUrl)
      ensures preview == old(preview) && uploading == old(uploading)
    {
      if !HasRequired(product) {
        return [Alert(RequiredAlert)];
      }
      loading := true;
      var payload := BuildPayload(product, imageUrl);
      effects := [Send(SaveRequest(id, payload))];
      match save {
        case Saved =>
          effects := effects + [Navigate("/dashboard")];
        case SaveFailed(message) =>
          effects := effects + [Alert(SaveFailedMessage(message))];
      }
      loading := false;
    }
  }

  /** After a failed upload the preview shows the chosen file while
      `imageUrl`, and so the next save, keeps the previous image. */
  method FailedUploadKeepsOldImage(page: ProductFormPage, file: ImageFile)
    requires file.size <= MaxImageSize
    requires page.imageUrl != Some(file.objectUrl)
    modifies page
    ensures page.preview == Some(file.objectUrl) && page.imageUrl == old(page.imageUrl)
    ensures page.preview != page.imageUrl
  {
    var _ := page.HandleImageChange(Some(file), UploadFailed);
  }
}
