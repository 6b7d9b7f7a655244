/**
 * The add-to-cart form: the quantity field's bounds, the cumulative stock
 * check of `clean_quantity`, and `save`, which adds the quantity to the
 * cart line of the product. Quantities are exact decimals, modelled as
 * `real`.
 */
module CartForms {
  import opened Common

  /** The quantity field: minimum 0, at most 10 digits of which 4 are decimals, initially 1. */
  const MinQuantity: real := 0.0
  const MaxDigits: nat := 10
  const DecimalPlaces: nat := 4
  const InitialQuantity: real := 1.0

  /** 10^n as a real. */
  function Pow10(n: nat): (p: real)
    ensures p >= 1.0
  {
    if n == 0 then 1.0 else 10.0 * Pow10(n - 1)
  }

  /**
   * The field's own validation: not below the minimum, no more than 4
   * decimal places, and no more than 10 - 4 = 6 digits before the point.
   */
  predicate ValidQuantityField(q: real)
  {
    && q >= MinQuantity
    && (q * Pow10(DecimalPlaces)).Floor as real == q * Pow10(DecimalPlaces)
    && q < Pow10(MaxDigits - DecimalPlaces)
  }

  /** The initial value passes the field's validation. */
  lemma InitialQuantityIsValid()
    ensures ValidQuantityField(InitialQuantity)
  {
    Pow10Facts();
  }

  /** A product and how much of it is in stock (`Unstocked` for products that are not stocked). */
  datatype Stock = Unstocked | Stocked(available: real)
  datatype Product = Product(id: string, stock: Stock)

  const InsufficientStockMessage: string := "Insufficient stock"

  /** The cart's stock check: a stocked product refuses more than is available. */
  function CheckQuantity(product: Product, quantity: real): (error: Option<string>)
    ensures error.Some? <==> product.stock.Stocked? && quantity > product.stock.available
  {
    if product.stock.Stocked? && quantity > product.stock.available then Some(InsufficientStockMessage) else None
  }

  /** The quantity checked: the existing line's quantity plus the requested one, or the requested one alone. */
  function CheckedQuantity(line: Option<real>, quantity: real): (q: real)
    ensures line.Some? ==> q == line.value + quantity
    ensures line.None? ==> q == quantity
  {
    if line.Some? then quantity + line.value else quantity
  }

  /**
   * `clean_quantity`: a refusal of the cumulative quantity becomes a
   * validation error; otherwise the requested quantity is returned as is.
   */
  function CleanQuantity(line: Option<real>, product: Product, quantity: real): (r: Result<real, string>)
    ensures r.Ok? ==> r.value == quantity
    ensures r.Err? <==> product.stock.Stocked? && CheckedQuantity(line, quantity) > product.stock.available
    ensures r.Err? ==> r.error == InsufficientStockMessage
  {
    match CheckQuantity(product, CheckedQuantity(line, quantity))
    case Some(e) => Err(e)
    case None => Ok(quantity)
  }

  /** The cart: a quantity per product id. */
  class Cart {
    var lines: map<string, real>

    constructor ()
      ensures lines == map[]
    {
      lines := map[];
    }

    /** `get_line`: the product's line, if any. */
    function GetLine(product: Product): (line: Option<real>)
      reads this
      ensures line.Some? <==> product.id in lines
      ensures line.Some? ==> line.value == lines[product.id]
    {
      if product.id in lines then Some(lines[product.id]) else None
    }

    /** `add_line`: adds the quantity to the product's line, creating it when missing. */
    method AddLine(product: Product, quantity: real)
      modifies this
      ensures lines == old(lines)[product.id := CheckedQuantity(old(GetLine(product)), quantity)]
    {
      var current := if product.id in lines then lines[product.id] else 0.0;
      lines := lines[product.id := current + quantity];
    }
  }

  /** Why the form is invalid: the field's own validation, or the stock check with its message. */
  datatype FormError = InvalidField | StockRefused(message: string)

  /**
   * The whole form validation: the field's own checks first, then
   * `clean_quantity` against the cart's current line.
   */
  function ValidateForm(line: Option<real>, product: Product, quantity: real): (r: Result<real, FormError>)
    ensures r.Ok? <==> ValidQuantityField(quantity) && CleanQuantity(line, product, quantity).Ok?
    ensures !ValidQuantityField(quantity) ==> r == Err(InvalidField)
    ensures r.Ok? ==> r.value == quantity
  {
    if !ValidQuantityField(quantity) then Err(InvalidField)
    else
      match CleanQuantity(line, product, quantity)
      case Ok(q) => Ok(q)
      case Err(e) => Err(StockRefused(e))
  }

  /** Validates the posted quantity and, when valid, saves it into the cart. */
  method SubmitAddToCart(cart: Cart, product: Product, quantity: real) returns (r: Result<real, FormError>)
    modifies cart
    ensures r == ValidateForm(old(cart.GetLine(product)), product, quantity)
    ensures r.Ok? ==> cart.lines == old(cart.lines)[product.id := CheckedQuantity(old(cart.GetLine(product)), quantity)]
    ensures r.Err? ==> cart.lines == old(cart.lines)
  {
    r := ValidateForm(cart.GetLine(product), product, quantity);
    if r.Ok? {
      cart.AddLine(product, r.value);
    }
  }

  /**
   * The stock-10 scenario: 5 then 5 are accepted and the line holds 10;
   * 15 on an empty cart is refused and the cart stays empty.
   */
  method StockTenScenario() returns (first: bool, second: bool, total: real, tooMany: bool, emptyAfterRefusal: bool)
    ensures first && second && total == 10.0
    ensures !tooMany && emptyAfterRefusal
  {
    var product := Product("big-ship", Stocked(10.0));
    Pow10Facts();
    var cart := new Cart();
    var r1 := SubmitAddToCart(cart, product, 5.0);
    var r2 := SubmitAddToCart(cart, product, 5.0);
    first, second := r1.Ok?, r2.Ok?;
    total := cart.lines[product.id];
    var other := new Cart();
    var r3 := SubmitAddToCart(other, product, 15.0);
    tooMany := r3.Ok?;
    emptyAfterRefusal := other.lines == map[];
  }

  lemma Pow10Facts()
    ensures Pow10(4) == 10000.0 && Pow10(6) == 1000000.0
  {
    assert Pow10(1) == 10.0 && Pow10(2) == 100.0 && Pow10(3) == 1000.0 && Pow10(5) == 100000.0;
  }
}
