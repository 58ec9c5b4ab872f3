/** The older product form component: numeric price fields, a multipart
    form body, and an `onSuccess` callback supplied by its parent. */
module ProductForm {
  import opened JsValues
  import ProductFormPage

  /** A chosen file; only its identity matters here. */
  datatype ImageFile = ImageFile(fileName: string, size: nat)

  datatype FormValue = Text(text: string) | File(file: ImageFile)
  datatype FormEntry = FormEntry(key: string, value: FormValue)

  /** `!name || !code || !originalPrice`: an empty name or code, or an
      original price of 0, fails. */
  predicate HasRequired(name: string, code: string, originalPrice: int) {
    name != "" && code != "" && originalPrice != 0
  }

  function Keys(entries: seq<FormEntry>): seq<string> {
    if entries == [] then [] else [entries[0].key] + Keys(entries[1..])
  }

  /** The multipart body of a save, as the successive appends build it. */
  function FormDataFor(name: string, code: string, originalPrice: int, salePrice: int,
                       imageFile: Option<ImageFile>): seq<FormEntry>
  {
    [FormEntry("name", Text(name)), FormEntry("code", Text(code)),
     FormEntry("originalPrice", Text(IntToString(originalPrice))),
     FormEntry("salePrice", Text(IntToString(salePrice)))] +
    (if imageFile.Some? then [FormEntry("image", File(imageFile.value))] else [])
  }

  /** The body always carries name, code and both prices, in that order,
      and an "image" entry exactly when a file is selected. */
  lemma FormDataKeys(name: string, code: string, originalPrice: int, salePrice: int,
                     imageFile: Option<ImageFile>)
    ensures Keys(FormDataFor(name, code, originalPrice, salePrice, imageFile)) ==
              ["name", "code", "originalPrice", "salePrice"] + (if imageFile.Some? then ["image"] else [])
    ensures "image" in Keys(FormDataFor(name, code, originalPrice, salePrice, imageFile)) <==> imageFile.Some?
  {
    var d := FormDataFor(name, code, originalPrice, salePrice, imageFile);
    assert Keys(d[4..]) == if imageFile.Some? then ["image"] else [];
    assert Keys(d[3..]) == ["salePrice"] + Keys(d[4..]);
    assert Keys(d[2..]) == ["originalPrice"] + Keys(d[3..]);
    assert Keys(d[1..]) == ["code"] + Keys(d[2..]);
  }

  /** The body's values give back the form's state: the texts, both prices
      read back from their decimal text, and the selected file. */
  lemma FormDataRoundTrip(name: string, code: string, originalPrice: int, salePrice: int,
                          imageFile: Option<ImageFile>)
    ensures var d := FormDataFor(name, code, originalPrice, salePrice, imageFile);
      && d[0].value == Text(name) && d[1].value == Text(code)
      && d[2].value.Text? && ParseInt(d[2].value.text) == Some(originalPrice)
      && d[3].value.Text? && ParseInt(d[3].value.text) == Some(salePrice)
      && (imageFile.Some? ==> d[4].value == File(imageFile.value))
  {
    IntToStringRoundTrip(originalPrice);
    IntToStringRoundTrip(salePrice);
  }

  /** The two forms disagree on a zero original price: this one refuses it,
      while the page form accepts the text "0" that it loads for it. */
  lemma ZeroPriceOnlyRejectedHere(name: string, code: string)
    requires name != "" && code != ""
    ensures !HasRequired(name, code, 0)
    ensures ProductFormPage.HasRequired(
              ProductFormPage.Normalise(
                ProductFormPage.FetchedProduct(Some(code), Some(name), None, Some(0), None, None)))
  {
  }

  /** The submit button's caption. */
  function SubmitText(productId: Option<string>): string {
    if Truthy(productId) then "Update Product" else "Add Product"
  }

  /** The caption names the request a save sends, and matches the page
      form's idle button for the same id. */
  lemma SubmitTextNamesRequest(productId: Option<string>, form: seq<FormEntry>)
    ensures SubmitText(productId) == "Update Product" <==> SaveRequest(productId, form).PutProduct?
    ensures SubmitText(productId) == ProductFormPage.ButtonFor(false, false, productId).text
  {
  }

  datatype Request =
    | GetProduct(id: string)                          // GET {host}/admin/products/{id}
    | PutProduct(id: string, form: seq<FormEntry>)    // PUT {host}/admin/products/{id}
    | PostProduct(form: seq<FormEntry>)               // POST {host}/admin/products

  datatype Effect = Send(request: Request) | Alert(message: string) | OnSuccess

  /** `res.data.product`, with the four fields the component reads. */
  datatype FetchedProduct = FetchedProduct(name: string, code: string, originalPrice: int, salePrice: int)
  datatype FetchOutcome = Fetched(product: FetchedProduct) | FetchFailed
  datatype SaveOutcome = Saved | SaveFailed

  const RequiredAlert := "Name, code, and original price are required"
  const SaveFailedAlert := "Failed to save product"

  /** The request a valid submit sends: an update with a product id, a
      creation otherwise. */
  function SaveRequest(productId: Option<string>, form: seq<FormEntry>): (r: Request)
    ensures r.PutProduct? <==> Truthy(productId)
    ensures r.PutProduct? ==> r.id == productId.value && r.form == form
    ensures r.PostProduct? ==> r.form == form
  {
    if Truthy(productId) then PutProduct(productId.value, form) else PostProduct(form)
  }

  class ProductForm {
    const productId: Option<string>
    var name: string
    var code: string
    var originalPrice: int
    var salePrice: int
    var imageFile: Option<ImageFile>

    constructor (productId: Option<string>)
      ensures this.productId == productId
      ensures name == "" && code == "" && originalPrice == 0 && salePrice == 0 && imageFile.None?
    {
      this.productId := productId;
      name, code := "", "";
      originalPrice, salePrice := 0, 0;
      imageFile := None;
    }

    /** The load effect: with a product id, a success copies the fetched
        name, code and prices into the form. A failure is not caught: no
        alert, and the form keeps its state. */
    method LoadProduct(response: FetchOutcome) returns (effects: seq<Effect>)
      modifies this
      ensures effects == if Truthy(productId) then [Send(GetProduct(productId.value))] else []
      ensures Truthy(productId) && response.Fetched? ==>
                && name == response.product.name && code == response.product.code
                && originalPrice == response.product.originalPrice && salePrice == response.product.salePrice
      ensures !(Truthy(productId) && response.Fetched?) ==>
                name == old(name) && code == old(code) &&
                originalPrice == old(originalPrice) && salePrice == old(salePrice)
      ensures imageFile == old(imageFile)
    {
      if !Truthy(productId) {
        return [];
      }
      effects := [Send(GetProduct(productId.value))];
      match response {
        case Fetched(p) =>
          name := p.name;
          code := p.code;
          originalPrice := p.originalPrice;
          salePrice := p.salePrice;
        case FetchFailed =>
      }
    }

    /** The code input. */
    method SetCode(v: string)
      modifies this`code
      ensures code == v
    {
      code := v;
    }

    /** The name input. */
    method SetName(v: string)
      modifies this`name
      ensures name == v
    {
      name := v;
    }

    /** The original price input, once its text is a number. */
    method SetOriginalPrice(v: int)
      modifies this`originalPrice
      ensures originalPrice == v
    {
      originalPrice := v;
    }

    /** The sale price input, once its text is a number. */
    method SetSalePrice(v: int)
      modifies this`salePrice
      ensures salePrice == v
    {
      salePrice := v;
    }

    /** The file input: the first selected file, or none. */
    method SelectImage(file: Option<ImageFile>)
      modifies this`imageFile
      ensures imageFile == file
    {
      imageFile := file;
    }

    /** Saving: an empty name or code, or a zero original price, only
        alerts. Otherwise the form body goes out as an update (with a
        product id) or a creation; `onSuccess` runs only after a success,
        and a failure alerts instead. */
    method HandleSubmit(save: SaveOutcome) returns (effects: seq<Effect>)
      ensures !HasRequired(name, code, originalPrice) ==> effects == [Alert(RequiredAlert)]
      ensures HasRequired(name, code, originalPrice) ==>
                effects == [Send(SaveRequest(productId, FormDataFor(name, code, originalPrice, salePrice, imageFile))),
                            if save.Saved? then OnSuccess else Alert(SaveFailedAlert)]
    {
      if !HasRequired(name, code, originalPrice) {
        return [Alert(RequiredAlert)];
      }
      var form: seq<FormEntry> := [];
      form := form + [FormEntry("name", Text(name))];
      form := form + [FormEntry("code", Text(code))];
      form := form + [FormEntry("originalPrice", Text(IntToString(originalPrice)))];
      form := form + [FormEntry("salePrice", Text(IntToString(salePrice)))];
      if imageFile.Some? {
        form := form + [FormEntry("image", File(imageFile.value))];
      }
      assert form == FormDataFor(name, code, originalPrice, salePrice, imageFile);
      effects := [Send(SaveRequest(productId, form))];
      match save {
        case Saved =>
          effects := effects + [OnSuccess];
        case SaveFailed =>
          effects := effects + [Alert(SaveFailedAlert)];
      }
    }
  }
}
