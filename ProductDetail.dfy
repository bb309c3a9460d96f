/**
  The product page's selection state: the product once fetched, the loading
  flag, the chosen colour and size, and a quantity kept between 1 and 10 by
  three guarded handlers (typed input, minus, plus).
 */
module ProductDetail {

  import opened Wrappers
  import opened NumberParsing

  /** The product record the page displays. */
  datatype Product = Product(
    id: string,
    sku: string,
    name: string,
    price: real,
    currency: string,
    image: string,
    description: string,
    features: seq<string>,
    colors: seq<string>,
    sizes: seq<string>,
    rating: real,
    reviewCount: int,
    inStock: bool)

  /** The product the page's fetch returns. */
  function MockProduct(): Product
  {
    Product("1", "MH01", "Hero Hoodie", 54.00, "USD",
            "https://via.placeholder.com/600x800?text=Hero+Hoodie",
            "A comfortable and stylish hoodie for everyday wear. Made with premium materials for durability and comfort.",
            ["Premium cotton blend", "Adjustable drawstring hood", "Front kangaroo pocket",
             "Ribbed cuffs and hem", "Machine washable"],
            ["Black", "Navy", "Gray", "Red"],
            ["S", "M", "L", "XL", "XXL"],
            4.5, 127, true)
  }

  const MinQuantity: int := 1
  const MaxQuantity: int := 10

  predicate InQuantityRange(q: int)
  {
    MinQuantity <= q <= MaxQuantity
  }

  // ---------------------------------------------------------------------------
  // The quantity selector as a transition function

  /** What the user does to the quantity: type text into the number field,
      press minus, press plus. */
  datatype QuantityEvent = Typed(text: string) | Minus | Plus

  /** The number field's rule: a parsed value is taken only when it is above 0
      and at most 10; `NaN` (None) and anything else leave the quantity alone. */
  function AcceptTyped(quantity: int, value: Option<int>): (r: int)
    ensures r == quantity || InQuantityRange(r)
    ensures r != quantity ==> value == Some(r)
    ensures value.Some? && InQuantityRange(value.value) ==> r == value.value
  {
    if value.Some? && value.value > 0 && value.value <= 10 then value.value else quantity
  }

  /** The quantity after one event: typed text is read with `parseInt`; minus
      acts only above 1 and plus only below 10. */
  function Step(quantity: int, event: QuantityEvent): (r: int)
    ensures InQuantityRange(quantity) ==> InQuantityRange(r)
    ensures event == Minus ==> (r == quantity - 1 <==> quantity > 1) && (r != quantity ==> r == quantity - 1)
    ensures event == Plus ==> (r == quantity + 1 <==> quantity < 10) && (r != quantity ==> r == quantity + 1)
  {
    match event
    case Typed(text) => AcceptTyped(quantity, ParseInt(text))
    case Minus => if quantity > 1 then quantity - 1 else quantity
    case Plus => if quantity < 10 then quantity + 1 else quantity
  }

  /** The quantity after a run of events, first event first. */
  function Run(quantity: int, events: seq<QuantityEvent>): int
    decreases events
  {
    if events == [] then quantity else Run(Step(quantity, events[0]), events[1..])
  }

  /** `k` presses of the same button. */
  function Presses(event: QuantityEvent, k: nat): (es: seq<QuantityEvent>)
    ensures |es| == k && forall i :: 0 <= i < k ==> es[i] == event
  {
    if k == 0 then [] else [event] + Presses(event, k - 1)
  }

  /** From any quantity in range, every run of events stays in range. */
  lemma {:induction false} RunStaysInRange(quantity: int, events: seq<QuantityEvent>)
    requires InQuantityRange(quantity)
    ensures InQuantityRange(Run(quantity, events))
    decreases events
  {
    if events != [] {
      RunStaysInRange(Step(quantity, events[0]), events[1..]);
    }
  }

  /** k presses of plus add k, stopping at 10. */
  lemma {:induction false} PlusPresses(quantity: int, k: nat)
    requires InQuantityRange(quantity)
    ensures Run(quantity, Presses(Plus, k)) == if quantity + k <= MaxQuantity then quantity + k else MaxQuantity
    decreases k
  {
    if k > 0 {
      assert Presses(Plus, k)[1..] == Presses(Plus, k - 1);
      PlusPresses(Step(quantity, Plus), k - 1);
    }
  }

  /** k presses of minus take away k, stopping at 1. */
  lemma {:induction false} MinusPresses(quantity: int, k: nat)
    requires InQuantityRange(quantity)
    ensures Run(quantity, Presses(Minus, k)) == if quantity - k >= MinQuantity then quantity - k else MinQuantity
    decreases k
  {
    if k > 0 {
      assert Presses(Minus, k)[1..] == Presses(Minus, k - 1);
      MinusPresses(Step(quantity, Minus), k - 1);
    }
  }

  /** Typing the decimal text of n (possibly followed by a fraction or an
      exponent, which `parseInt` ignores) sets the quantity to n exactly when
      n is in range, and leaves it alone otherwise; an empty field changes nothing. */
  lemma TypedNumber(quantity: int, n: int, suffix: string)
    requires suffix == [] || (DigitValue(suffix[0]) >= 10 && suffix[0] != 'x' && suffix[0] != 'X')
    ensures Step(quantity, Typed(IntString(n) + suffix)) == if InQuantityRange(n) then n else quantity
    ensures Step(quantity, Typed("")) == quantity
  {
    ParseIntOfIntString(n, suffix);
    ParseIntWithoutDigits("");
  }

  // ---------------------------------------------------------------------------
  // What the page shows

  /** The three branches of the page: spinner, "not found", the product. */
  datatype View = Loading | NotFound | Showing(product: Product)

  class DetailState {
    var product: Option<Product>
    var loading: bool
    var selectedColor: string
    var selectedSize: string
    var quantity: int

    /** The quantity is always between 1 and 10. */
    ghost predicate Valid()
      reads this
    {
      InQuantityRange(quantity)
    }

    /** On mount: no product, loading, nothing selected, quantity 1. */
    constructor ()
      ensures Valid()
      ensures product == None && loading
      ensures selectedColor == "" && selectedSize == "" && quantity == 1
    {
      product := None;
      loading := true;
      selectedColor := "";
      selectedSize := "";
      quantity := 1;
    }

    /** Which branch the page renders: loading wins, then a missing product. */
    function CurrentView(): (v: View)
      reads this
      ensures v == Loading <==> loading
      ensures v == NotFound <==> !loading && product == None
      ensures v.Showing? ==> product == Some(v.product)
    {
      if loading then Loading
      else if product == None then NotFound
      else Showing(product.value)
    }

    /** The fetch effect as one step. On success the product is stored, the
        first colour and the second size are selected, and loading ends; on
        failure only loading ends, so a page that never had a product shows
        "not found". The quantity is never touched. */
    method FetchProduct(succeeded: bool)
      requires Valid()
      modifies this
      ensures Valid()
      ensures !loading && quantity == old(quantity)
      ensures succeeded ==>
                product == Some(MockProduct()) &&
                selectedColor == MockProduct().colors[0] && selectedSize == MockProduct().sizes[1]
      ensures !succeeded ==>
                product == old(product) &&
                selectedColor == old(selectedColor) && selectedSize == old(selectedSize)
      ensures succeeded ==> CurrentView() == Showing(MockProduct())
      ensures !succeeded && old(product) == None ==> CurrentView() == NotFound
    {
      if succeeded {
        var p := MockProduct();
        product := Some(p);
        selectedColor := p.colors[0];
        selectedSize := p.sizes[1];
      }
      loading := false;
    }

    /** Selects the given colour; nothing else changes. */
    method HandleColorChange(color: string)
      requires Valid()
      modifies this
      ensures Valid()
      ensures selectedColor == color
      ensures product == old(product) && loading == old(loading)
      ensures selectedSize == old(selectedSize) && quantity == old(quantity)
    {
      selectedColor := color;
    }

    /** Selects the given size; nothing else changes. */
    method HandleSizeChange(size: string)
      requires Valid()
      modifies this
      ensures Valid()
      ensures selectedSize == size
      ensures product == old(product) && loading == old(loading)
      ensures selectedColor == old(selectedColor) && quantity == old(quantity)
    {
      selectedSize := size;
    }

    /** The number field's change handler: the text is read with `parseInt`
        and the quantity takes the value only when it is above 0 and at most 10. */
    method HandleQuantityChange(text: string)
      requires Valid()
      modifies this
      ensures Valid()
      ensures quantity == AcceptTyped(old(quantity), ParseInt(text))
      ensures product == old(product) && loading == old(loading)
      ensures selectedColor == old(selectedColor) && selectedSize == old(selectedSize)
    {
      var value := ParseInt(text);
      if value.Some? && value.value > 0 && value.value <= 10 {
        quantity := value.value;
      }
    }

    /** The minus button: lowers the quantity only while it is above 1. */
    method DecrementQuantity()
      requires Valid()
      modifies this
      ensures Valid()
      ensures quantity == Step(old(quantity), Minus)
      ensures product == old(product) && loading == old(loading)
      ensures selectedColor == old(selectedColor) && selectedSize == old(selectedSize)
    {
      if quantity > 1 {
        quantity := quantity - 1;
      }
    }

    /** The plus button: raises the quantity only while it is below 10. */
    method IncrementQuantity()
      requires Valid()
      modifies this
      ensures Valid()
      ensures quantity == Step(old(quantity), Plus)
      ensures product == old(product) && loading == old(loading)
      ensures selectedColor == old(selectedColor) && selectedSize == old(selectedSize)
    {
      if quantity < 10 {
        quantity := quantity + 1;
      }
    }
  }

  /** The fixture has a first colour and a second size to select by default. */
  lemma MockProductSelectable()
    ensures |MockProduct().colors| >= 1 && |MockProduct().sizes| >= 2
    ensures MockProduct().colors[0] == "Black" && MockProduct().sizes[1] == "M"
  {
  }

  /** A session with the page: a failed fetch shows "not found"; a successful
      one selects Black and M; plus at 10 and minus at 1 do nothing. */
  method DetailScenario()
  {
    var failed := new DetailState();
    failed.FetchProduct(false);
    assert failed.CurrentView() == NotFound;

    var page := new DetailState();
    page.FetchProduct(true);
    MockProductSelectable();
    assert page.selectedColor == "Black" && page.selectedSize == "M";
    page.DecrementQuantity();
    assert page.quantity == 1;
    var ten, eleven := IntString(10) + ".5", IntString(11);
    ParseIntOfIntString(10, ".5");
    page.HandleQuantityChange(ten);
    assert page.quantity == 10;
    page.IncrementQuantity();
    assert page.quantity == 10;
    ParseIntOfIntString(11, "");
    assert eleven + "" == eleven;
    page.HandleQuantityChange(eleven);
    assert page.quantity == 10;
  }
}
