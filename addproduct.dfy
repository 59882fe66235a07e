/**
 * The add-product screen: a form of seven text fields, edited one field at a time,
 * validated and converted on submit.
 */
module AddProduct {
  import opened Wrappers
  import opened Js

  datatype Field = Name | Price | Stock | Category | Description | LowStockAlert | Barcode

  /** `formData`: every field holds the text typed so far. */
  datatype Form = Form(
    name: string,
    price: string,
    stock: string,
    category: string,
    description: string,
    lowStockAlert: string,
    barcode: string)
  {
    function Get(f: Field): string
    {
      match f
      case Name => name
      case Price => price
      case Stock => stock
      case Category => category
      case Description => description
      case LowStockAlert => lowStockAlert
      case Barcode => barcode
    }

    /** `{ ...prev, [field]: value }`. */
    function With(f: Field, value: string): (r: Form)
      ensures r.Get(f) == value
      ensures forall g :: g != f ==> r.Get(g) == Get(g)
    {
      match f
      case Name => this.(name := value)
      case Price => this.(price := value)
      case Stock => this.(stock := value)
      case Category => this.(category := value)
      case Description => this.(description := value)
      case LowStockAlert => this.(lowStockAlert := value)
      case Barcode => this.(barcode := value)
    }
  }

  /** The initial and the reset form: all empty except the low-stock alert, which shows "10". */
  function InitialForm(): (f: Form)
    ensures forall g :: f.Get(g) == (if g == LowStockAlert then "10" else "")
  {
    Form("", "", "", "", "", "10", "")
  }

  /** Two forms with the same text in every field are the same form. */
  lemma FormsEqualByFields(a: Form, b: Form)
    requires forall g :: a.Get(g) == b.Get(g)
    ensures a == b
  {
    assert a.Get(Name) == b.Get(Name) && a.Get(Price) == b.Get(Price) && a.Get(Stock) == b.Get(Stock);
    assert a.Get(Category) == b.Get(Category) && a.Get(Description) == b.Get(Description);
    assert a.Get(LowStockAlert) == b.Get(LowStockAlert) && a.Get(Barcode) == b.Get(Barcode);
  }

  /** Writing back the text a field already holds changes nothing; a second write to a field overrides the first. */
  lemma WithLaws(form: Form, f: Field, v: string, w: string)
    ensures form.With(f, form.Get(f)) == form
    ensures form.With(f, v).With(f, w) == form.With(f, w)
  {
    FormsEqualByFields(form.With(f, form.Get(f)), form);
    FormsEqualByFields(form.With(f, v).With(f, w), form.With(f, w));
  }

  /**
   * What is handed to `addProduct`: the form's fields with `stock` and `lowStockAlert`
   * converted to numbers. The price stays as text because its `parseFloat` is not modelled.
   */
  datatype Submission = Submission(
    name: string,
    priceText: string,
    stock: Number,
    category: string,
    description: string,
    lowStockAlert: int,
    barcode: string)

  datatype SubmitResult = Missing | Submitted(product: Submission)

  /** `parseInt(text) || 10`: a zero or unparsable alert falls back to 10. */
  function AlertLevel(text: string): (r: int)
    ensures ParseInt(text).Num? && ParseInt(text).v != 0 ==> r == ParseInt(text).v
    ensures ParseInt(text).NaN? || ParseInt(text) == Num(0) ==> r == 10
    ensures r != 0
  {
    var n := ParseInt(text);
    if n.Truthy() then n.v else 10
  }

  /** `handleSubmit`: the required fields are name, price and stock. */
  function Submit(form: Form): (r: SubmitResult)
    ensures r == Missing <==> form.name == "" || form.price == "" || form.stock == ""
    ensures r.Submitted? ==>
      var p := r.product;
      p.name == form.name && p.priceText == form.price && p.category == form.category
      && p.description == form.description && p.barcode == form.barcode
      && p.stock == ParseInt(form.stock)
      && p.lowStockAlert == AlertLevel(form.lowStockAlert)
  {
    if form.name == "" || form.price == "" || form.stock == "" then Missing
    else Submitted(Submission(form.name, form.price, ParseInt(form.stock), form.category,
                              form.description, AlertLevel(form.lowStockAlert), form.barcode))
  }

  /** Submitting the untouched form is refused, since its required fields are empty. */
  lemma InitialFormIsMissing()
    ensures Submit(InitialForm()) == Missing
  {
  }

  /** A submitted alert level round-trips any non-zero integer the user typed. */
  lemma AlertLevelOfTypedNumber(n: int)
    requires n != 0
    ensures AlertLevel(Text.IntToString(n)) == n
  {
    ParseIntOfIntToString(n);
  }

  /** The add-product screen's `formData` state. */
  class AddProductScreen {
    var formData: Form

    constructor ()
      ensures formData == InitialForm()
    {
      formData := InitialForm();
    }

    /** `handleInputChange(field, value)`: only the named field changes. */
    method HandleInputChange(field: Field, value: string)
      modifies this
      ensures formData == old(formData).With(field, value)
    {
      formData := formData.With(field, value);
    }

    /** `resetForm`. */
    method ResetForm()
      modifies this
      ensures formData == InitialForm()
    {
      formData := InitialForm();
    }

    /** `handleSubmit` as seen from the screen: it reads the form and leaves it as it is. */
    method HandleSubmit() returns (r: SubmitResult)
      ensures r == Submit(formData)
      ensures r == Missing <==> formData.name == "" || formData.price == "" || formData.stock == ""
    {
      r := Submit(formData);
    }
  }
}
