/**
 * The admin product editor: the form state, its field transforms (price sanitising, the image
 * list, the empty-to-absent mapping) and the create or update it submits.
 */
module AdminProducts {
  import opened Wrappers
  import opened Types
  import opened Seqs
  import opened Numbers
  import opened ProductsApi

  /** `ProductFormData`: the optional text fields are plain strings here, `""` when absent. */
  datatype FormData = FormData(
    name: string,
    price: int,
    category: Category,
    subcategory: string,
    images: seq<string>,
    description: string,
    isSold: bool,
    seriesId: string)

  /** `emptyForm` */
  const EmptyForm: FormData := FormData("", 0, Merch, "", [], "", false, "")

  /** The price input's change handler: keep the digits; no digits means 0. */
  function SanitizePrice(input: string): (price: nat)
    ensures DigitsOnly(input) == "" ==> price == 0
    ensures DigitsOnly(input) != "" ==> Decimal(price) == DigitsOnly(input) || DigitsOnly(input)[0] == '0'
  {
    var value := DigitsOnly(input);
    if value == "" then 0
    else
      if value[0] != '0' then
        DecimalOfParsed(value);
        ParseDigits(value)
      else
        ParseDigits(value)
  }

  /** Digits without a leading zero are the decimal form of their value. */
  lemma {:induction false} DecimalOfParsed(s: string)
    requires AllDigits(s) && s != [] && s[0] != '0'
    ensures Decimal(ParseDigits(s)) == s
  {
    ParseDecimal(ParseDigits(s));
    DigitsCanonical(Decimal(ParseDigits(s)), s);
  }

  /** Two digit strings without leading zeros and with the same value are equal. */
  lemma {:induction false} DigitsCanonical(a: string, b: string)
    requires AllDigits(a) && AllDigits(b) && a != [] && b != []
    requires (|a| > 1 ==> a[0] != '0') && (|b| > 1 ==> b[0] != '0')
    requires ParseDigits(a) == ParseDigits(b)
    ensures a == b
    decreases |a|
  {
    ParseLastDigit(a);
    ParseLastDigit(b);
    var a', b' := a[..|a| - 1], b[..|b| - 1];
    if |a| == 1 && |b| == 1 {
      DigitValueInjective(a[0], b[0]);
    } else if |a| == 1 {
      ParseLeadingBound(b);
    } else if |b| == 1 {
      ParseLeadingBound(a);
    } else {
      DigitValueInjective(a[|a| - 1], b[|b| - 1]);
      DigitsCanonical(a', b');
    }
  }

  lemma DigitValueInjective(c: char, d: char)
    requires IsDigit(c) && IsDigit(d) && DigitValue(c) == DigitValue(d)
    ensures c == d
  {
    assert DigitChar(DigitValue(c)) == c;
  }

  /** The value of a digit string is ten times the value of all but the last digit, plus the last. */
  lemma ParseLastDigit(s: string)
    requires AllDigits(s) && s != []
    ensures |s| == 1 ==> ParseDigits(s) == DigitValue(s[0])
    ensures |s| > 1 ==> ParseDigits(s) == 10 * ParseDigits(s[..|s| - 1]) + DigitValue(s[|s| - 1])
  {
  }

  /** A digit string of two or more digits that starts with a non-zero digit is at least 10. */
  lemma {:induction false} ParseLeadingBound(s: string)
    requires AllDigits(s) && |s| > 1 && s[0] != '0'
    ensures ParseDigits(s) >= 10
  {
    ParseLastDigit(s);
    var init := s[..|s| - 1];
    if |init| == 1 {
      ParseLastDigit(init);
      assert DigitValue(init[0]) != 0 by {
        assert DigitChar(0) == '0';
      }
    } else {
      ParseLeadingBound(init);
    }
  }

  /** What the price input shows: nothing for 0, the decimal digits otherwise (`price || ""`). */
  function PriceInput(price: nat): string {
    if price == 0 then "" else Decimal(price)
  }

  /** Re-reading what the price input shows gives the price back. */
  lemma PriceInputRoundTrip(price: nat)
    ensures SanitizePrice(PriceInput(price)) == price
  {
    if price != 0 {
      DigitsOnlyOfDigits(Decimal(price));
      ParseDecimal(price);
    }
  }

  /** Pasting a price as the shop displays it, with ru-RU grouping, yields that price. */
  lemma PastedPrice(price: nat)
    ensures SanitizePrice(FormatRu(price) + " ₽") == price
  {
    FormatRuDigits(price);
    DigitsOnlyConcat(FormatRu(price), " ₽");
    assert DigitsOnly(" ₽") == "";
    assert DigitsOnly(FormatRu(price) + " ₽") == Decimal(price);
    ParseDecimal(price);
  }

  /** Sanitising twice is sanitising once. */
  lemma SanitizeIdempotent(input: string)
    ensures SanitizePrice(PriceInput(SanitizePrice(input))) == SanitizePrice(input)
  {
    PriceInputRoundTrip(SanitizePrice(input));
  }

  /** `formData.images.filter((_, i) => i !== index)` */
  function WithoutIndex(images: seq<string>, index: int): (r: seq<string>)
    ensures 0 <= index < |images| ==> (|r| == |images| - 1
      && (forall i :: 0 <= i < index ==> r[i] == images[i])
      && (forall i :: index <= i < |r| ==> r[i] == images[i + 1]))
    ensures !(0 <= index < |images|) ==> r == images
  {
    if 0 <= index < |images| then images[..index] + images[index + 1..] else images
  }

  /** The data `handleSubmit` sends: empty subcategory and series become absent. */
  function SubmittedFields(f: FormData): (d: ProductFields)
    ensures d.subcategory.None? <==> f.subcategory == ""
    ensures d.seriesId.None? <==> f.seriesId == ""
    ensures d.subcategory.Some? ==> d.subcategory.value == f.subcategory
    ensures d.seriesId.Some? ==> d.seriesId.value == f.seriesId
    ensures d.name == f.name && d.price == f.price && d.category == f.category && d.images == f.images
      && d.description == f.description && d.isSold == f.isSold
  {
    ProductFields(f.name, f.price, f.category,
      if f.subcategory == "" then None else Some(f.subcategory),
      f.images, f.description, f.isSold,
      if f.seriesId == "" then None else Some(f.seriesId))
  }

  /** `handleEdit`'s form: a missing subcategory or series shows as `""`. */
  function EditForm(p: Product): (f: FormData)
    ensures f.subcategory == p.subcategory.GetOr("") && f.seriesId == p.seriesId.GetOr("")
  {
    FormData(p.name, p.price, p.category, p.subcategory.GetOr(""), p.images, p.description, p.isSold, p.seriesId.GetOr(""))
  }

  /** Opening a product for editing and submitting the untouched form sends the product's own fields, unless one held `""`. */
  lemma EditThenSubmit(p: Product)
    requires p.subcategory != Some("") && p.seriesId != Some("")
    ensures SubmittedFields(EditForm(p))
      == ProductFields(p.name, p.price, p.category, p.subcategory, p.images, p.description, p.isSold, p.seriesId)
  {
  }

  /**
   * The update `handleSubmit` sends while editing. An absent field is left out of the call, so
   * the stored value is kept.
   */
  function EditPatch(f: FormData): (u: ProductPatch)
    ensures u.subcategory.None? <==> f.subcategory == ""
    ensures u.seriesId.None? <==> f.seriesId == ""
  {
    var d := SubmittedFields(f);
    ProductPatch(Some(d.name), Some(d.price), Some(d.category), d.subcategory, Some(d.images),
      Some(d.description), Some(d.isSold), d.seriesId)
  }

  /** Clearing the series of a product in the editor and saving leaves the product in its old series. */
  lemma ClearedSeriesKept(p: Product, f: FormData)
    requires Truthy(p.seriesId) && f.seriesId == ""
    ensures Patched(p, EditPatch(f)).seriesId == p.seriesId
    ensures Patched(p, EditPatch(f)).seriesId != SubmittedFields(f).seriesId
  {
  }

  /** The product an edit is meant to produce: every field of the form, a cleared one removed. */
  function IntendedEdit(p: Product, f: FormData): (q: Product)
    ensures q.id == p.id && q.creationTime == p.creationTime && q.createdAt == p.createdAt
    ensures q.subcategory.None? <==> f.subcategory == ""
    ensures q.seriesId.None? <==> f.seriesId == ""
  {
    var d := SubmittedFields(f);
    p.(name := d.name, price := d.price, category := d.category, subcategory := d.subcategory,
       images := d.images, description := d.description, isSold := d.isSold, seriesId := d.seriesId)
  }

  /** The intended edit agrees with the patch as sent whenever no optional field is cleared, and reopening it shows the form that was saved. */
  lemma IntendedEditAgrees(p: Product, f: FormData)
    ensures f.subcategory != "" && f.seriesId != "" ==> IntendedEdit(p, f) == Patched(p, EditPatch(f))
    ensures EditForm(IntendedEdit(p, f)) == f
  {
  }

  /** The state of the products screen. */
  class ProductsForm {
    var isEditing: bool
    var editingProduct: Option<Product>
    var formData: FormData
    var imageUrl: string

    constructor ()
      ensures !isEditing && editingProduct == None && formData == EmptyForm && imageUrl == ""
    {
      isEditing := false;
      editingProduct := None;
      formData := EmptyForm;
      imageUrl := "";
    }

    /** `handleAddImageUrl`: appends a new, non-empty URL and clears the input; otherwise nothing changes. */
    method HandleAddImageUrl()
      modifies this
      ensures old(imageUrl) != "" && old(imageUrl) !in old(formData.images) ==>
        formData == old(formData).(images := old(formData.images) + [old(imageUrl)]) && imageUrl == ""
      ensures old(imageUrl) == "" || old(imageUrl) in old(formData.images) ==>
        formData == old(formData) && imageUrl == old(imageUrl)
      ensures isEditing == old(isEditing) && editingProduct == old(editingProduct)
    {
      if imageUrl != "" && imageUrl !in formData.images {
        formData := formData.(images := formData.images + [imageUrl]);
        imageUrl := "";
      }
    }

    /** `removeImage(index)` */
    method RemoveImage(index: int)
      modifies this
      ensures formData == old(formData).(images := WithoutIndex(old(formData.images), index))
      ensures imageUrl == old(imageUrl) && isEditing == old(isEditing) && editingProduct == old(editingProduct)
    {
      formData := formData.(images := WithoutIndex(formData.images, index));
    }

    /** The price input. */
    method SetPrice(input: string)
      modifies this
      ensures formData == old(formData).(price := SanitizePrice(input))
      ensures imageUrl == old(imageUrl) && isEditing == old(isEditing) && editingProduct == old(editingProduct)
    {
      formData := formData.(price := SanitizePrice(input));
    }

    /** The sold checkbox flips only `isSold`. */
    method ToggleSold()
      modifies this
      ensures formData == old(formData).(isSold := !old(formData.isSold))
      ensures imageUrl == old(imageUrl) && isEditing == old(isEditing) && editingProduct == old(editingProduct)
    {
      formData := formData.(isSold := !formData.isSold);
    }

    /** `handleEdit(product)` */
    method HandleEdit(p: Product)
      modifies this
      ensures editingProduct == Some(p) && formData == EditForm(p) && isEditing
      ensures imageUrl == old(imageUrl)
    {
      editingProduct := Some(p);
      formData := EditForm(p);
      isEditing := true;
    }

    /** `handleCreate()` */
    method HandleCreate()
      modifies this
      ensures editingProduct == None && formData == EmptyForm && isEditing
      ensures imageUrl == old(imageUrl)
    {
      editingProduct := None;
      formData := EmptyForm;
      isEditing := true;
    }

    /**
     * `handleSubmit`: updates the product being edited or creates a new one, then closes the editor
     * with an empty form. The name and price inputs are `required`, and the price input shows
     * nothing for 0, so the form is submitted only with a name and a non-zero price.
     */
    method HandleSubmit(table: ProductTable, now: int, freshId: string, creationTime: int)
      requires formData.name != "" && formData.price != 0
      requires table.Valid() && !HasProduct(table.products, freshId)
      modifies this, table
      ensures table.Valid()
      ensures old(editingProduct).None? ==> table.products == old(table.products) + [Product(freshId, creationTime,
        old(formData).name, old(formData).price, old(formData).category, SubmittedFields(old(formData)).subcategory,
        old(formData).images, old(formData).description, old(formData).isSold, SubmittedFields(old(formData)).seriesId, now)]
      ensures old(editingProduct).Some? ==> |table.products| == |old(table.products)|
      ensures old(editingProduct).Some? ==> forall i :: 0 <= i < |table.products| ==>
        (table.products[i] == if old(table.products)[i].id == old(editingProduct).value.id
          then Patched(old(table.products)[i], EditPatch(old(formData))) else old(table.products)[i])
      ensures !isEditing && editingProduct == None && formData == EmptyForm && imageUrl == old(imageUrl)
    {
      match editingProduct {
        case Some(p) =>
          var _ := table.UpdateProduct(p.id, EditPatch(formData));
        case None =>
          var _ := table.CreateProduct(SubmittedFields(formData), now, freshId, creationTime);
      }
      isEditing := false;
      editingProduct := None;
      formData := EmptyForm;
    }

    /** `handleDelete(id)`: deletes only when the confirmation dialog is accepted. */
    method HandleDelete(table: ProductTable, id: string, confirmed: bool)
      requires table.Valid()
      modifies table
      ensures table.Valid()
      ensures !confirmed ==> table.products == old(table.products)
      ensures confirmed ==> !HasProduct(table.products, id)
      ensures confirmed ==> forall p :: p in old(table.products) && p.id != id ==> p in table.products
    {
      if confirmed {
        table.DeleteProduct(id);
      }
    }
  }
}
