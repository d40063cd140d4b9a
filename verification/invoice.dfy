/**
 * The invoice screen: a form record edited one field at a time, an ordered
 * list of products that grows by one on every "Add Product", and the totals,
 * rows, amount-in-words line and file name derived from them.
 *
 * Amounts are exact reals; the screen computes them in IEEE doubles.
 */
module Invoice {
  import Text

  datatype Product = Product(name: string, hsn: string, quantity: real, unit: string, rate: real)

  /** The form state: ten header fields followed by the product-entry fields. */
  datatype FormData = FormData(
    invoiceNumber: string,
    invoiceDate: string,
    transportMode: string,
    vehicleNumber: string,
    supplyDate: string,
    deliveryPlace: string,
    billedTo: string,
    shippedTo: string,
    gstin: string,
    state: string,
    productName: string,
    hsn: string,
    quantity: real,
    unit: string,
    rate: real)

  /** The names a change event can carry, one per form field. */
  datatype Field =
    | InvoiceNumber | InvoiceDate | TransportMode | VehicleNumber | SupplyDate
    | DeliveryPlace | BilledTo | ShippedTo | Gstin | State
    | ProductName | Hsn | Quantity | Unit | Rate

  /** A field's value: text, or a number for the quantity and rate fields. */
  datatype FieldValue = Str(text: string) | Num(number: real)

  const InitialForm: FormData :=
    FormData("", "", "ROAD", "", "", "", "", "", "", "", "", "", 0.0, "NOS", 0.0)

  /** The fields the form renders an input for; unit and transport mode have none. */
  const RenderedInputs: set<Field> :=
    {InvoiceNumber, InvoiceDate, VehicleNumber, SupplyDate, DeliveryPlace,
     BilledTo, ShippedTo, Gstin, State, ProductName, Hsn, Quantity, Rate}

  /** The product-entry fields that "Add Product" resets. */
  const ClearedOnAdd: set<Field> := {ProductName, Hsn, Quantity, Rate}

  predicate IsNumeric(f: Field) { f == Quantity || f == Rate }

  /** A value of the kind the field holds. */
  predicate Fits(f: Field, v: FieldValue) { IsNumeric(f) <==> v.Num? }

  /** Reads one field of the form, by name. */
  function Get(form: FormData, f: Field): (v: FieldValue)
    ensures Fits(f, v)
  {
    match f
    case InvoiceNumber => Str(form.invoiceNumber)
    case InvoiceDate => Str(form.invoiceDate)
    case TransportMode => Str(form.transportMode)
    case VehicleNumber => Str(form.vehicleNumber)
    case SupplyDate => Str(form.supplyDate)
    case DeliveryPlace => Str(form.deliveryPlace)
    case BilledTo => Str(form.billedTo)
    case ShippedTo => Str(form.shippedTo)
    case Gstin => Str(form.gstin)
    case State => Str(form.state)
    case ProductName => Str(form.productName)
    case Hsn => Str(form.hsn)
    case Quantity => Num(form.quantity)
    case Unit => Str(form.unit)
    case Rate => Num(form.rate)
  }

  /** `{ ...form, [f]: v }`: the named field takes the new value, every other field keeps its own. */
  function Set(form: FormData, f: Field, v: FieldValue): (r: FormData)
    requires Fits(f, v)
    ensures Get(r, f) == v
    ensures forall g :: g != f ==> Get(r, g) == Get(form, g)
  {
    match f
    case InvoiceNumber => form.(invoiceNumber := v.text)
    case InvoiceDate => form.(invoiceDate := v.text)
    case TransportMode => form.(transportMode := v.text)
    case VehicleNumber => form.(vehicleNumber := v.text)
    case SupplyDate => form.(supplyDate := v.text)
    case DeliveryPlace => form.(deliveryPlace := v.text)
    case BilledTo => form.(billedTo := v.text)
    case ShippedTo => form.(shippedTo := v.text)
    case Gstin => form.(gstin := v.text)
    case State => form.(state := v.text)
    case ProductName => form.(productName := v.text)
    case Hsn => form.(hsn := v.text)
    case Quantity => form.(quantity := v.number)
    case Unit => form.(unit := v.text)
    case Rate => form.(rate := v.number)
  }

  /** The product "Add Product" appends, each field read from the form field of the same name. */
  function ProductFrom(form: FormData): (p: Product)
    ensures Get(form, ProductName) == Str(p.name) && Get(form, Hsn) == Str(p.hsn)
    ensures Get(form, Quantity) == Num(p.quantity) && Get(form, Unit) == Str(p.unit)
    ensures Get(form, Rate) == Num(p.rate)
  {
    Product(form.productName, form.hsn, form.quantity, form.unit, form.rate)
  }

  /** The form after "Add Product": entry fields blanked, unit and header fields kept. */
  function ClearProductEntry(form: FormData): (r: FormData)
    ensures Get(r, ProductName) == Str("") && Get(r, Hsn) == Str("")
    ensures Get(r, Quantity) == Num(0.0) && Get(r, Rate) == Num(0.0)
    ensures forall g :: g !in ClearedOnAdd ==> Get(r, g) == Get(form, g)
  {
    form.(productName := "", hsn := "", quantity := 0.0, rate := 0.0)
  }

  /** The value shown for one product: quantity times rate. */
  function LineValue(p: Product): real { p.quantity * p.rate }

  /** Reference sum of the line values, from the first product to the last. */
  function Sum(products: seq<Product>): real
  {
    if products == [] then 0.0 else LineValue(products[0]) + Sum(products[1..])
  }

  /**
   * `products.reduce((s, p) => s + p.quantity * p.rate, acc)`: a left fold,
   * which adds the line values to whatever it starts from.
   */
  function Fold(acc: real, products: seq<Product>): (r: real)
    ensures r == acc + Sum(products)
    decreases |products|
  {
    if products == [] then acc else Fold(acc + LineValue(products[0]), products[1..])
  }

  /** The subtotal: the fold started at 0, so the sum of the line values; no products give 0. */
  function Subtotal(products: seq<Product>): (r: real)
    ensures r == Sum(products)
    ensures products == [] ==> r == 0.0
  {
    Fold(0.0, products)
  }

  /** Appending a product raises the subtotal by exactly its line value. */
  lemma {:induction false} SubtotalAppend(products: seq<Product>, p: Product)
    ensures Subtotal(products + [p]) == Subtotal(products) + LineValue(p)
  {
    FoldAppend(0.0, products, p);
  }

  lemma {:induction false} FoldAppend(acc: real, products: seq<Product>, p: Product)
    ensures Fold(acc, products + [p]) == Fold(acc, products) + LineValue(p)
    decreases |products|
  {
    if products == [] {
      assert products + [p] == [p];
      assert [p][1..] == [];
    } else {
      assert (products + [p])[1..] == products[1..] + [p];
      FoldAppend(acc + LineValue(products[0]), products[1..], p);
    }
  }

  datatype Totals = Totals(subtotal: real, sgst: real, cgst: real, igst: real, roundOff: real, total: real)

  /**
   * The totals block: 9% SGST and 9% CGST on the subtotal, IGST and round-off
   * fixed at 0, and the total their sum, which is 118% of the subtotal.
   */
  function ComputeTotals(products: seq<Product>): (t: Totals)
    ensures t.subtotal == Sum(products)
    ensures t.sgst == t.cgst == t.subtotal * 9.0 / 100.0
    ensures t.igst == 0.0 && t.roundOff == 0.0
    ensures t.total == t.subtotal * 118.0 / 100.0
  {
    var subtotal := Subtotal(products);
    var sgst := subtotal * 0.09;
    var cgst := subtotal * 0.09;
    var igst := 0.0;
    var roundOff := 0.0;
    Totals(subtotal, sgst, cgst, igst, roundOff, subtotal + sgst + cgst + igst + roundOff)
  }

  predicate NonNegativeAmounts(products: seq<Product>)
  {
    forall i :: 0 <= i < |products| ==> products[i].quantity >= 0.0 && products[i].rate >= 0.0
  }

  lemma {:induction false} SumNonNegative(products: seq<Product>)
    requires NonNegativeAmounts(products)
    ensures Sum(products) >= 0.0
    decreases |products|
  {
    if products != [] {
      assert NonNegativeAmounts(products[1..]) by {
        forall i | 0 <= i < |products[1..]|
          ensures products[1..][i].quantity >= 0.0 && products[1..][i].rate >= 0.0
        {
          assert products[1..][i] == products[i + 1];
        }
      }
      SumNonNegative(products[1..]);
      var p := products[0];
      assert p.quantity >= 0.0 && p.rate >= 0.0;
      assert LineValue(p) >= 0.0;
    }
  }

  /** With no negative quantity or rate, 0 <= subtotal <= total. */
  lemma TotalsBounded(products: seq<Product>)
    requires NonNegativeAmounts(products)
    ensures 0.0 <= ComputeTotals(products).subtotal <= ComputeTotals(products).total
  {
    SumNonNegative(products);
  }

  /** Worked cases: one line of 10 at 100, and an empty invoice. */
  lemma TotalsExamples()
    ensures ComputeTotals([Product("BRICK", "6901", 10.0, "NOS", 100.0)])
      == Totals(1000.0, 90.0, 90.0, 0.0, 0.0, 1180.0)
    ensures ComputeTotals([]) == Totals(0.0, 0.0, 0.0, 0.0, 0.0, 0.0)
  {
  }

  /** One rendered row of the products table. */
  datatype Row = Row(serial: nat, name: string, hsn: string, quantity: real, unit: string, rate: real, value: real)

  /**
   * `products.map((p, i) => ...)`: one row per product, in order; row i is
   * numbered i + 1, shows the product's fields and its line value, and the
   * value column adds up to the subtotal.
   */
  function Rows(products: seq<Product>): (rows: seq<Row>)
    ensures |rows| == |products|
    ensures forall i :: 0 <= i < |products| ==>
      && rows[i].serial == i + 1
      && rows[i].value == LineValue(products[i])
      && rows[i].name == products[i].name && rows[i].hsn == products[i].hsn
      && rows[i].quantity == products[i].quantity && rows[i].unit == products[i].unit
      && rows[i].rate == products[i].rate
    ensures RowSum(rows) == Subtotal(products)
  {
    var rows := seq(|products|, i requires 0 <= i < |products| =>
      var p := products[i];
      Row(i + 1, p.name, p.hsn, p.quantity, p.unit, p.rate, p.quantity * p.rate));
    RowSumMatches(rows, products);
    rows
  }

  function RowSum(rows: seq<Row>): real
  {
    if rows == [] then 0.0 else rows[0].value + RowSum(rows[1..])
  }

  lemma {:induction false} RowSumMatches(rows: seq<Row>, products: seq<Product>)
    requires |rows| == |products|
    requires forall i :: 0 <= i < |rows| ==> rows[i].value == LineValue(products[i])
    ensures RowSum(rows) == Sum(products)
    decreases |rows|
  {
    if rows != [] {
      RowSumMatches(rows[1..], products[1..]);
    }
  }

  const InvoiceSuffix: string := "-invoice.pdf"

  /** The download name, built from the billed-to field. */
  function PdfFileName(billedTo: string): (name: string)
    ensures |name| == |billedTo| + |InvoiceSuffix|
    ensures name[..|billedTo|] == billedTo && name[|billedTo|..] == InvoiceSuffix
  {
    billedTo + InvoiceSuffix
  }

  /** The party a download name was built for. */
  function BilledToOf(name: string): string
    requires |name| >= |InvoiceSuffix|
  {
    name[..|name| - |InvoiceSuffix|]
  }

  /** The billed-to party can be read back from the file name, so different parties get different names. */
  lemma FileNameRoundTrip(billedTo: string, other: string)
    ensures BilledToOf(PdfFileName(billedTo)) == billedTo
    ensures PdfFileName(billedTo) == PdfFileName(other) ==> billedTo == other
  {
  }

  /**
   * `numberToWords`: the amount's two-decimal rendering, upper-cased,
   * followed by " ONLY". The rendering itself is the parameter.
   */
  function NumberToWords(rendered: string): (words: string)
    ensures |words| == |rendered| + 5
    ensures words[|rendered|..] == " ONLY"
    ensures forall i :: 0 <= i < |rendered| ==> words[i] == Text.UpperChar(rendered[i])
  {
    Text.Upper(rendered) + " ONLY"
  }

  /** The invoice screen's state: the form record and the product list. */
  class InvoicePage {
    var formData: FormData
    var products: seq<Product>

    /** No input exists for `unit`, so the form and every product keep the initial unit. */
    predicate DefaultUnit()
      reads this
    {
      formData.unit == "NOS" && forall i :: 0 <= i < |products| ==> products[i].unit == "NOS"
    }

    /** The totals, recomputed from the product list on every read. */
    function Totals(): (t: Totals)
      reads this
      ensures t.total == Sum(products) * 118.0 / 100.0
    {
      ComputeTotals(products)
    }

    constructor ()
      ensures formData == InitialForm && products == []
      ensures DefaultUnit()
    {
      formData := InitialForm;
      products := [];
    }

    /** `handleChange`: sets the named field only; the products are untouched. */
    method HandleChange(name: Field, value: FieldValue)
      requires Fits(name, value)
      modifies this
      ensures formData == Set(old(formData), name, value)
      ensures Get(formData, name) == value
      ensures forall g :: g != name ==> Get(formData, g) == Get(old(formData), g)
      ensures products == old(products)
      ensures name in RenderedInputs && old(DefaultUnit()) ==> DefaultUnit()
    {
      formData := Set(formData, name, value);
    }

    /**
     * `addProduct`: appends the product built from the entry fields, keeps
     * every earlier product in place, then blanks the entry fields.
     */
    method AddProduct()
      modifies this
      ensures products == old(products) + [ProductFrom(old(formData))]
      ensures |products| == |old(products)| + 1
      ensures products[..|old(products)|] == old(products)
      ensures products[|products| - 1] == Product(old(formData).productName, old(formData).hsn,
                                                  old(formData).quantity, old(formData).unit, old(formData).rate)
      ensures formData == ClearProductEntry(old(formData))
      ensures formData.productName == "" && formData.hsn == "" && formData.quantity == 0.0 && formData.rate == 0.0
      ensures forall g :: g !in ClearedOnAdd ==> Get(formData, g) == Get(old(formData), g)
      ensures Subtotal(products) == Subtotal(old(products)) + old(formData).quantity * old(formData).rate
      ensures old(DefaultUnit()) ==> DefaultUnit()
    {
      SubtotalAppend(products, ProductFrom(formData));
      products := products + [ProductFrom(formData)];
      formData := ClearProductEntry(formData);
    }

    /** The download name for the current billed-to field. */
    function DownloadName(): (name: string)
      reads this
      ensures |name| >= |InvoiceSuffix| && BilledToOf(name) == formData.billedTo
    {
      FileNameRoundTrip(formData.billedTo, formData.billedTo);
      PdfFileName(formData.billedTo)
    }
  }
}
