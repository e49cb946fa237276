/** The products page: the product form with its input guard and its
    validation, the stock status of each product with the summary cards,
    and the search box. */
module ProductForm {
  import opened Common

  /** A product row as the products API returns it; the price is the
      database's decimal text. */
  datatype Product = Product(id: int, name: string, description: string, price: string, stock: int)

  /** The stock field holds typed text, or the stored number when the form
      was opened on an existing product. */
  datatype StockInput = StockText(text: string) | StockNumber(n: int)

  datatype Form = Form(name: string, price: string, stock: StockInput, description: string)

  /** The blank form of a new product. */
  const BlankForm := Form("", "", StockText(""), "")

  /** `handleOpen(product)`: the form filled from an existing product. */
  function EditForm(p: Product): (f: Form)
    ensures f.stock == StockNumber(p.stock)
  {
    Form(p.name, p.price, StockNumber(p.stock), p.description)
  }

  // -------------------------------------------------------- input guard

  datatype FieldName = Name | Price | Stock | Description

  /** `^\d*\.?\d*$`: digits, at most one point, digits. */
  predicate PricePattern(s: string)
  {
    AllDigits(s) || exists k :: 0 <= k < |s| && s[k] == '.' && AllDigits(s[..k]) && AllDigits(s[k + 1..])
  }

  predicate PriceInputAllowed(value: string)
  {
    value == "" || PricePattern(value)
  }

  /** Digits and points only, with no second point. */
  predicate DigitsAndOnePoint(s: string)
  {
    (forall i :: 0 <= i < |s| ==> IsDigit(s[i]) || s[i] == '.')
    && (forall i, j :: 0 <= i < j < |s| && s[i] == '.' ==> s[j] != '.')
  }

  /** The pattern admits exactly the strings of digits and points with no
      second point. */
  lemma PricePatternChars(s: string)
    ensures PricePattern(s) <==> DigitsAndOnePoint(s)
  {
    if PricePattern(s) {
      PatternHasOnePoint(s);
    }
    if DigitsAndOnePoint(s) {
      OnePointMatchesPattern(s);
    }
  }

  lemma PatternHasOnePoint(s: string)
    requires PricePattern(s)
    ensures DigitsAndOnePoint(s)
  {
    if !AllDigits(s) {
      var k :| 0 <= k < |s| && s[k] == '.' && AllDigits(s[..k]) && AllDigits(s[k + 1..]);
      forall i | 0 <= i < k ensures IsDigit(s[i]) {
        assert s[..k][i] == s[i];
      }
      forall i | k < i < |s| ensures IsDigit(s[i]) {
        assert s[k + 1..][i - k - 1] == s[i];
      }
      forall i, j | 0 <= i < j < |s| && s[i] == '.' ensures s[j] != '.' {
        assert i == k;
      }
    }
  }

  lemma OnePointMatchesPattern(s: string)
    requires DigitsAndOnePoint(s)
    ensures PricePattern(s)
  {
    if !AllDigits(s) {
      var k :| 0 <= k < |s| && !IsDigit(s[k]);
      forall i | 0 <= i < k ensures IsDigit(s[i]) {
        assert s[i] != '.';
      }
      forall i | k < i < |s| ensures IsDigit(s[i]) {
        assert s[i] != '.';
      }
      assert AllDigits(s[..k]) && AllDigits(s[k + 1..]);
    }
  }

  /** `handleChange`: a price edit that fails the guard is dropped; every
      other edit replaces its field and nothing else. */
  function HandleChange(form: Form, field: FieldName, value: string): (r: Form)
    ensures field == Price && !PriceInputAllowed(value) ==> r == form
    ensures field == Price && PriceInputAllowed(value) ==> r == form.(price := value)
    ensures field == Name ==> r == form.(name := value)
    ensures field == Stock ==> r == form.(stock := StockText(value))
    ensures field == Description ==> r == form.(description := value)
  {
    match field
    case Name => form.(name := value)
    case Price => if PriceInputAllowed(value) then form.(price := value) else form
    case Stock => form.(stock := StockText(value))
    case Description => form.(description := value)
  }

  /** Once the price field holds an allowed value, no edit takes it out. */
  lemma {:induction false} PriceStaysAllowed(form: Form, edits: seq<(FieldName, string)>)
    requires PriceInputAllowed(form.price)
    ensures PriceInputAllowed(ApplyEdits(form, edits).price)
    decreases |edits|
  {
    if edits != [] {
      PriceStaysAllowed(HandleChange(form, edits[0].0, edits[0].1), edits[1..]);
    }
  }

  function ApplyEdits(form: Form, edits: seq<(FieldName, string)>): Form
    decreases |edits|
  {
    if edits == [] then form else ApplyEdits(HandleChange(form, edits[0].0, edits[0].1), edits[1..])
  }

  // --------------------------------------------------------- validation

  datatype FieldError =
    | NameRequired | NameTooShort | NameNumeric
    | PriceRequired | PriceNotPositive | PriceTooPrecise
    | StockRequired | StockNotWhole
    | DescriptionRequired | DescriptionTooShort

  function Message(e: FieldError): string
  {
    match e
    case NameRequired => "Product name is required"
    case NameTooShort => "Product name must be at least 3 characters"
    case NameNumeric => "Product name cannot be purely numeric"
    case PriceRequired => "Price is required"
    case PriceNotPositive => "Price must be a positive number"
    case PriceTooPrecise => "Price can have maximum 2 decimal places"
    case StockRequired => "Stock quantity is required"
    case StockNotWhole => "Stock must be a positive whole number"
    case DescriptionRequired => "Description is required"
    case DescriptionTooShort => "Description must be at least 10 characters"
  }

  datatype FormErrors = FormErrors(name: Option<FieldError>, price: Option<FieldError>,
                                   stock: Option<FieldError>, description: Option<FieldError>)

  const NoErrors := FormErrors(None, None, None, None)

  function NameError(name: string): Option<FieldError>
  {
    var t := Trim(name);
    if t == "" then Some(NameRequired)
    else if Utf16Length(t) < 3 then Some(NameTooShort)
    else if AllDigits(t) then Some(NameNumeric)
    else None
  }

  /** The text after the first point, as `price.split('.')[1]`. */
  function Fraction(price: string): Option<string>
  {
    var parts := Split(price, '.');
    if |parts| >= 2 then Some(parts[1]) else None
  }

  function PriceError(price: string): Option<FieldError>
  {
    if price == "" then Some(PriceRequired)
    else
      var v := JsParseFloat(price);
      if v.None? || v.value.mantissa <= 0 then Some(PriceNotPositive)
      else if Fraction(price).Some? && Utf16Length(Fraction(price).value) > 2 then Some(PriceTooPrecise)
      else None
  }

  /** A stock value is falsy when it is `''` or the number 0. */
  predicate Falsy(stock: StockInput)
  {
    stock == StockText("") || stock == StockNumber(0)
  }

  /** `parseInt(stock)`: a number stands for itself. */
  function StockValue(stock: StockInput): Option<int>
  {
    match stock
    case StockText(s) => JsParseInt(s)
    case StockNumber(n) => Some(n)
  }

  /** The stock rule as written: a falsy value is missing. */
  function StockError(stock: StockInput): Option<FieldError>
  {
    if Falsy(stock) then Some(StockRequired)
    else
      var v := StockValue(stock);
      if v.None? || v.value < 0 then Some(StockNotWhole) else None
  }

  function DescriptionError(description: string): Option<FieldError>
  {
    var t := Trim(description);
    if t == "" then Some(DescriptionRequired)
    else if Utf16Length(t) < 10 then Some(DescriptionTooShort)
    else None
  }

  function ErrorsOf(form: Form): FormErrors
  {
    FormErrors(NameError(form.name), PriceError(form.price), StockError(form.stock),
               DescriptionError(form.description))
  }

  /** `validateForm`: every rule is checked, each failure records its
      message and clears `isValid`. */
  method ValidateForm(form: Form) returns (isValid: bool, errors: FormErrors)
    ensures errors == ErrorsOf(form)
    ensures isValid <==> errors == NoErrors
  {
    errors := NoErrors;
    isValid := true;

    var name := Trim(form.name);
    if name == "" {
      errors := errors.(name := Some(NameRequired));
      isValid := false;
    } else if Utf16Length(name) < 3 {
      errors := errors.(name := Some(NameTooShort));
      isValid := false;
    } else if AllDigits(name) {
      errors := errors.(name := Some(NameNumeric));
      isValid := false;
    }
    assert errors == NoErrors.(name := NameError(form.name)) && (isValid <==> errors == NoErrors);

    if form.price == "" {
      errors := errors.(price := Some(PriceRequired));
      isValid := false;
    } else {
      var price := JsParseFloat(form.price);
      if price.None? || price.value.mantissa <= 0 {
        errors := errors.(price := Some(PriceNotPositive));
        isValid := false;
      } else if Fraction(form.price).Some? && Utf16Length(Fraction(form.price).value) > 2 {
        errors := errors.(price := Some(PriceTooPrecise));
        isValid := false;
      }
    }
    assert errors == NoErrors.(name := NameError(form.name), price := PriceError(form.price));
    assert isValid <==> errors == NoErrors;

    if Falsy(form.stock) {
      errors := errors.(stock := Some(StockRequired));
      isValid := false;
    } else {
      var stock := StockValue(form.stock);
      if stock.None? || stock.value < 0 {
        errors := errors.(stock := Some(StockNotWhole));
        isValid := false;
      }
    }
    assert errors == ErrorsOf(form).(description := None) && (isValid <==> errors == NoErrors);

    var description := Trim(form.description);
    if description == "" {
      errors := errors.(description := Some(DescriptionRequired));
      isValid := false;
    } else if Utf16Length(description) < 10 {
      errors := errors.(description := Some(DescriptionTooShort));
      isValid := false;
    }
  }

  /** A name passes exactly when, trimmed, it is at least 3 UTF-16 units
      long and is not all digits; it is missing exactly when it is blank. */
  lemma NameRule(name: string)
    ensures NameError(name) == None <==> Utf16Length(Trim(name)) >= 3 && !AllDigits(Trim(name))
    ensures NameError(name) == Some(NameRequired) <==> IsBlank(name)
  {
    TrimEmptyIffBlank(name);
  }

  /** Two characters beyond U+FFFF are four UTF-16 units: such a name is
      long enough. */
  lemma AstralNameLongEnough(a: char, b: char)
    requires a as int >= 0x10000 && b as int >= 0x10000
    ensures NameError([a, b]) == None
  {
    assert !IsSpace(a) && !IsSpace(b) && !IsDigit(a);
    TrimOfNonSpaceEnds([a, b]);
    assert [a, b][..1] == [a];
    assert Utf16Length([a, b]) == 4;
  }

  /** A price passes exactly when it is a positive number with at most 2
      characters after its first point. */
  lemma PriceRule(price: string)
    ensures PriceError(price) == Some(PriceRequired) <==> price == ""
    ensures PriceError(price) == None <==>
              price != "" && JsParseFloat(price).Some? && JsParseFloat(price).value.mantissa > 0
              && (Fraction(price).None? || Utf16Length(Fraction(price).value) <= 2)
  {
  }

  /** A stock passes exactly when it is not falsy and parses to a whole
      number of at least 0. */
  lemma StockRule(stock: StockInput)
    ensures StockError(stock) == Some(StockRequired) <==> Falsy(stock)
    ensures StockError(stock) == None <==> !Falsy(stock) && StockValue(stock).Some? && StockValue(stock).value >= 0
  {
  }

  /** A description passes exactly when it is at least 10 UTF-16 units long
      once trimmed; it is missing exactly when it is blank. */
  lemma DescriptionRule(description: string)
    ensures DescriptionError(description) == None <==> Utf16Length(Trim(description)) >= 10
    ensures DescriptionError(description) == Some(DescriptionRequired) <==> IsBlank(description)
  {
    TrimEmptyIffBlank(description);
  }

  /** A form passes exactly when each of its four fields does. */
  lemma FormAcceptedIff(form: Form)
    ensures ErrorsOf(form) == NoErrors <==>
              Utf16Length(Trim(form.name)) >= 3 && !AllDigits(Trim(form.name))
              && form.price != "" && JsParseFloat(form.price).Some? && JsParseFloat(form.price).value.mantissa > 0
              && (Fraction(form.price).None? || Utf16Length(Fraction(form.price).value) <= 2)
              && !Falsy(form.stock) && StockValue(form.stock).Some? && StockValue(form.stock).value >= 0
              && Utf16Length(Trim(form.description)) >= 10
  {
    NameRule(form.name);
    PriceRule(form.price);
    StockRule(form.stock);
    DescriptionRule(form.description);
  }

  /** The stored stock 0 of an out-of-stock product counts as missing:
      the form opened on it cannot be saved unchanged. */
  lemma OutOfStockEditRejected(p: Product)
    requires p.stock == 0
    ensures ErrorsOf(EditForm(p)).stock == Some(StockRequired)
    ensures ErrorsOf(EditForm(p)) != NoErrors
  {
  }

  /** The stock rule as intended: only an empty field is missing, and any
      whole number of at least 0 is accepted. */
  function StockErrorFixed(stock: StockInput): (e: Option<FieldError>)
  {
    if stock == StockText("") then Some(StockRequired)
    else
      var v := StockValue(stock);
      if v.None? || v.value < 0 then Some(StockNotWhole) else None
  }

  function ErrorsOfFixed(form: Form): FormErrors
  {
    FormErrors(NameError(form.name), PriceError(form.price), StockErrorFixed(form.stock),
               DescriptionError(form.description))
  }

  /** The corrected rule accepts exactly the whole numbers of at least 0,
      agrees with the written rule everywhere except on the stored 0, and
      accepts the stock of every product opened for editing. */
  lemma StockErrorFixedIff(stock: StockInput)
    ensures StockErrorFixed(stock) == None <==>
              stock != StockText("") && StockValue(stock).Some? && StockValue(stock).value >= 0
    ensures stock != StockNumber(0) ==> StockErrorFixed(stock) == StockError(stock)
    ensures stock.StockNumber? && stock.n >= 0 ==> StockErrorFixed(stock) == None
  {
  }

  /** With the corrected rule the form opened on an out-of-stock product
      passes whenever its other fields do. */
  lemma OutOfStockEditAcceptedFixed(p: Product)
    requires p.stock >= 0
    ensures ErrorsOfFixed(EditForm(p)).stock == None
    ensures ErrorsOfFixed(EditForm(p)) == ErrorsOf(EditForm(p)).(stock := None)
  {
  }

  // ------------------------------------------------------- stock status

  datatype StockStatus = InStock | LowStock | OutOfStock

  /** The status chip of one product. */
  function StatusOf(stock: int): (s: StockStatus)
    ensures s == OutOfStock <==> stock == 0
    ensures s == InStock <==> stock >= 10
    ensures s == LowStock <==> stock != 0 && stock < 10
  {
    if stock == 0 then OutOfStock else if stock < 10 then LowStock else InStock
  }

  predicate CountedInStock(p: Product) { p.stock >= 10 }
  predicate CountedLow(p: Product) { p.stock > 0 && p.stock < 10 }
  predicate CountedOut(p: Product) { p.stock == 0 }

  /** The four summary cards: all products, in stock, low, out. */
  datatype Cards = Cards(total: nat, inStock: nat, lowStock: nat, outOfStock: nat)

  function CardsOf(products: seq<Product>): Cards
  {
    Cards(|products|, Count(products, CountedInStock), Count(products, CountedLow), Count(products, CountedOut))
  }

  /** With no negative stock the three buckets split the products, and
      each card counts the products whose chip shows its status. */
  lemma {:induction false} CardsPartition(products: seq<Product>)
    requires forall i :: 0 <= i < |products| ==> products[i].stock >= 0
    ensures CardsOf(products).inStock + CardsOf(products).lowStock + CardsOf(products).outOfStock == |products|
  {
    if products != [] {
      var init := products[..|products| - 1];
      CardsPartition(init);
    }
  }

  /** On a non-negative stock the chip and the card predicates agree. */
  lemma ChipMatchesCard(p: Product)
    requires p.stock >= 0
    ensures StatusOf(p.stock) == InStock <==> CountedInStock(p)
    ensures StatusOf(p.stock) == LowStock <==> CountedLow(p)
    ensures StatusOf(p.stock) == OutOfStock <==> CountedOut(p)
  {
  }

  // ------------------------------------------------------------- search

  /** A product matches a lower-case query through its name, its
      description or its price text. */
  predicate Matches(p: Product, query: string)
  {
    Contains(ToLower(p.name), query) || Contains(ToLower(p.description), query) || Contains(p.price, query)
  }

  /** The product search: a blank query shows every product; otherwise the
      products that match the lower-cased query, in order. */
  function SearchProducts(products: seq<Product>, query: string): (r: seq<Product>)
    ensures IsBlank(query) ==> r == products
    ensures !IsBlank(query) ==> forall p :: p in r <==> p in products && Matches(p, ToLower(query))
  {
    TrimEmptyIffBlank(query);
    if Trim(query) == "" then products
    else Filter(products, (p: Product) => Matches(p, ToLower(query)))
  }

  lemma ToLowerTwice(s: string)
    ensures ToLower(ToLower(s)) == ToLower(s)
  {
  }

  /** The search does not depend on the case of the query. */
  lemma SearchIgnoresQueryCase(products: seq<Product>, query: string)
    ensures forall p :: p in SearchProducts(products, query) <==> p in SearchProducts(products, ToLower(query))
  {
    ToLowerTwice(query);
    assert IsBlank(query) <==> IsBlank(ToLower(query)) by {
      forall i | 0 <= i < |query| ensures IsSpace(query[i]) <==> IsSpace(ToLower(query)[i]) {
        assert ToLower(query)[i] == ToLowerChar(query[i]);
      }
    }
  }
}
