/** The shopping web app (web_enviroments/shopping/src/App.js): star
    ratings, the page state kept in the URL, the product search, and the
    purchase and cart modals with the cart they fill. */
module Shopping {
  import opened Wrappers
  import opened Text
  import opened Seqs

  /** A store; its coordinates only feed the distance shown beside
      nearby prices. */
  datatype Store = Store(id: int, name: string, location: string)

  /** The four stores; the first is the default. */
  const Stores: seq<Store> := [
    Store(1, "Target", "Uptown"),
    Store(2, "Whole Foods", "Centertown"),
    Store(3, "Costco", "Downtown"),
    Store(4, "CVS", "Midtown")
  ]

  datatype Price = Price(storeId: int, amount: real)

  datatype Product = Product(id: int, name: string, prices: seq<Price>, rating: real,
                             colors: seq<string>, sizes: seq<string>)

  // ---------------------------------------------------------------------
  // Star ratings

  datatype Star = Full | Half | Empty

  /** `n` copies of `star`; none when `n` is not positive (a loop
      `for (i = 0; i < n; i++)` that never runs). */
  function Repeat(star: Star, n: int): (r: seq<Star>)
    ensures |r| == if n <= 0 then 0 else n
    ensures forall i :: 0 <= i < |r| ==> r[i] == star
  {
    if n <= 0 then [] else Repeat(star, n - 1) + [star]
  }

  /** Whether a half star is drawn: the fractional part is at least one half. */
  predicate HasHalf(rating: real) {
    rating - rating.Floor as real >= 0.5
  }

  /** The stars `renderRating` draws: full stars, a half star, then the
      empty stars that bring the count to five. */
  function Stars(rating: real): seq<Star> {
    var full := rating.Floor;
    var half := if HasHalf(rating) then 1 else 0;
    Repeat(Full, full) + Repeat(Half, half) + Repeat(Empty, 5 - full - half)
  }

  /** `renderRating`, which pushes the stars in three loops. */
  method RenderRating(rating: real) returns (stars: seq<Star>)
    ensures stars == Stars(rating)
  {
    var full := rating.Floor;
    var half := HasHalf(rating);
    var empty := 5 - full - (if half then 1 else 0);
    stars := [];
    var i := 0;
    while i < full
      invariant 0 <= i <= (if full > 0 then full else 0)
      invariant stars == Repeat(Full, i)
    {
      stars := stars + [Full];
      i := i + 1;
    }
    if full <= 0 {
      assert i == 0 && Repeat(Full, full) == [];
    }
    assert stars == Repeat(Full, full);
    if half {
      stars := stars + [Half];
    }
    ghost var front := stars;
    assert front == Repeat(Full, full) + Repeat(Half, if half then 1 else 0);
    i := 0;
    while i < empty
      invariant 0 <= i <= (if empty > 0 then empty else 0)
      invariant stars == front + Repeat(Empty, i)
    {
      stars := stars + [Empty];
      i := i + 1;
    }
    if empty <= 0 {
      assert i == 0 && Repeat(Empty, empty) == [];
    }
    assert Repeat(Empty, i) == Repeat(Empty, empty);
  }

  /** The floor of the rating in full stars first, a half star iff the
      fraction reaches one half, and five stars in all for a rating
      between 0 and 5. */
  lemma StarsShape(rating: real)
    ensures var s := Stars(rating);
      (forall i :: 0 <= i < |s| ==> (s[i] == Full <==> i < rating.Floor)) &&
      (Half in s <==> HasHalf(rating)) &&
      (0.0 <= rating <= 5.0 ==> |s| == 5)
  {
    var full := rating.Floor;
    var half := if HasHalf(rating) then 1 else 0;
    var s := Stars(rating);
    var a, b, c := Repeat(Full, full), Repeat(Half, half), Repeat(Empty, 5 - full - half);
    assert s == a + b + c;
    forall i | 0 <= i < |s| ensures s[i] == Full <==> i < full {
      if i < |a| {
        assert s[i] == a[i];
      } else if i < |a| + |b| {
        assert s[i] == b[i - |a|];
      } else {
        assert s[i] == c[i - |a| - |b|];
      }
    }
    if HasHalf(rating) {
      assert s[|a|] == Half;
    } else {
      forall i | 0 <= i < |s| ensures s[i] != Half {
        if i < |a| {
          assert s[i] == a[i];
        } else {
          assert s[i] == c[i - |a|];
        }
      }
    }
    if 0.0 <= rating <= 5.0 {
      assert 0 <= full <= 5;
      if full == 5 {
        assert rating == 5.0;
      }
    }
  }

  // ---------------------------------------------------------------------
  // Integers in the URL and in the quantity field

  /** The length of the run of ASCII digits `s` starts with. */
  function DigitRun(s: string): (n: nat)
    ensures n <= |s| && AllDigits(s[..n])
    ensures n < |s| ==> !IsDigit(s[n])
  {
    if s == [] || !IsDigit(s[0]) then 0
    else
      var n := 1 + DigitRun(s[1..]);
      assert s[..n] == [s[0]] + s[1..][..n - 1];
      n
  }

  /** JavaScript's `parseInt(s, 10)`: leading whitespace, an optional
      sign, then the longest run of digits, the rest ignored; `None` for
      `NaN` (no digits, or a missing parameter). */
  function JsParseInt(s: Option<string>): (r: Option<int>)
    ensures r.Some? ==> s.Some?
  {
    match s
    case None => None
    case Some(text) =>
      var t := TrimLeftWith(text, IsJsSpace);
      var signed := t != [] && (t[0] == '+' || t[0] == '-');
      var body := if signed then t[1..] else t;
      var n := DigitRun(body);
      if n == 0 then None
      else
        var v: int := Decimal(body[..n]);
        Some(if signed && t[0] == '-' then -v else v)
  }

  lemma DigitRunAll(d: string)
    requires AllDigits(d)
    ensures DigitRun(d) == |d|
  {
    if d != [] {
      DigitRunAll(d[1..]);
    }
  }

  /** `parseInt(String(n), 10) == n`. */
  lemma JsParseIntString(n: int)
    ensures JsParseInt(Some(IntString(n))) == Some(n)
  {
    var m: nat := if n < 0 then -n else n;
    var d := NatDigits(m);
    DecimalNatDigits(m);
    DigitRunAll(d);
    assert d[..|d|] == d;
    var s := IntString(n);
    assert IsDigit(d[0]);
    if n < 0 {
      assert s == "-" + d && s[1..] == d;
    }
    assert !IsJsSpace(s[0]);
    assert TrimLeftWith(s, IsJsSpace) == s;
  }

  /** The quantity field's `parseInt(value, 10) || 1`: a non-zero number
      is kept (negative ones too), anything else becomes 1. */
  function QuantityInput(text: string): (q: int)
    ensures q != 0
  {
    match JsParseInt(Some(text))
    case Some(n) => if n != 0 then n else 1
    case None => 1
  }

  /** A typed quantity is read back, sign included; never zero. */
  lemma QuantityInputString(n: int)
    ensures QuantityInput(IntString(n)) == if n == 0 then 1 else n
  {
    JsParseIntString(n);
  }

  // ---------------------------------------------------------------------
  // The page state in the URL

  /** A query string as its decoded key/value pairs, in order. */
  type Params = seq<(string, string)>

  /** `URLSearchParams.get`: the first value under `key`, or null. */
  function Get(params: Params, key: string): Option<string> {
    if params == [] then None
    else if params[0].0 == key then Some(params[0].1)
    else Get(params[1..], key)
  }

  lemma GetConcat(a: Params, b: Params, key: string)
    ensures Get(a + b, key) == if Get(a, key).Some? then Get(a, key) else Get(b, key)
  {
    if a != [] {
      assert (a + b)[0] == a[0];
      if a[0].0 != key {
        assert (a + b)[1..] == a[1..] + b;
        assert Get(a + b, key) == Get(a[1..] + b, key);
        GetConcat(a[1..], b, key);
      }
    } else {
      assert a + b == b;
    }
  }

  /** The six parameters the page reads. */
  datatype Query = Query(storeId: Option<string>, search: Option<string>, product: Option<string>,
                         size: Option<string>, qty: Option<string>, cart: Option<string>)

  function QueryOf(params: Params): Query {
    Query(Get(params, "storeId"), Get(params, "search"), Get(params, "product"),
          Get(params, "size"), Get(params, "qty"), Get(params, "cart"))
  }

  function First(a: Option<string>, b: Option<string>): Option<string> {
    if a.Some? then a else b
  }

  /** What two parameter lists read when joined: each key from the first
      list that has it. */
  function Merge(x: Query, y: Query): Query {
    Query(First(x.storeId, y.storeId), First(x.search, y.search), First(x.product, y.product),
          First(x.size, y.size), First(x.qty, y.qty), First(x.cart, y.cart))
  }

  lemma QueryOfConcat(a: Params, b: Params)
    ensures QueryOf(a + b) == Merge(QueryOf(a), QueryOf(b))
  {
    GetConcat(a, b, "storeId");
    GetConcat(a, b, "search");
    GetConcat(a, b, "product");
    GetConcat(a, b, "size");
    GetConcat(a, b, "qty");
    GetConcat(a, b, "cart");
  }

  /** JavaScript truthiness of a parameter: present and not empty. */
  predicate Truthy(param: Option<string>) {
    param.Some? && param.value != ""
  }

  /** `stores.find(s => s.id === id)`. */
  function FindStore(id: Option<int>): (r: Option<Store>)
    ensures r.Some? ==> r.value in Stores && id == Some(r.value.id)
    ensures r.None? ==> id.None? || forall s :: s in Stores ==> s.id != id.value
  {
    match id
    case None => None
    case Some(n) =>
      if n == 1 then Some(Stores[0])
      else if n == 2 then Some(Stores[1])
      else if n == 3 then Some(Stores[2])
      else if n == 4 then Some(Stores[3])
      else None
  }

  /** `products.find(p => p.id === id)`: the first product with that id. */
  function FindProduct(catalog: seq<Product>, id: Option<int>): (r: Option<Product>)
    ensures r.Some? ==> r.value in catalog && id == Some(r.value.id)
    ensures r.None? ==> id.None? || forall p :: p in catalog ==> p.id != id.value
  {
    if id.None? || catalog == [] then None
    else if catalog[0].id == id.value then Some(catalog[0])
    else FindProduct(catalog[1..], id)
  }

  /** The page state the URL records. */
  datatype View = View(store: Option<Store>, search: string, product: Option<Product>,
                       showPurchase: bool, showCart: bool, size: Option<string>, qty: int)

  /** The first size of a product, or null for a product without sizes. */
  function FirstSize(p: Product): (r: Option<string>)
    ensures r.Some? <==> p.sizes != []
    ensures r.Some? ==> r.value in p.sizes
  {
    if p.sizes != [] then Some(p.sizes[0]) else None
  }

  /** The size in the URL if the product offers it, else its first size. */
  function SizeFrom(p: Product, param: Option<string>): (r: Option<string>)
    ensures r.Some? <==> p.sizes != []
    ensures r.Some? ==> r.value in p.sizes
    ensures Truthy(param) && param.value in p.sizes ==> r == param
  {
    if Truthy(param) && param.value in p.sizes then param else FirstSize(p)
  }

  /** The quantity in the URL if it is a positive integer, else 1. */
  function QtyFrom(param: Option<string>): (q: int)
    ensures q >= 1
    ensures JsParseInt(param).Some? && JsParseInt(param).value > 0 ==> q == JsParseInt(param).value
  {
    var n := JsParseInt(param);
    if n.Some? && n.value > 0 then n.value else 1
  }

  /** `getInitialStateFromURL` on the parameters read: a known `storeId`
      picks the store (the first store otherwise); a known `product` opens
      the purchase modal with a valid size and a positive quantity;
      `cart=open` opens the cart unless the purchase modal is open. */
  function FromQuery(catalog: seq<Product>, q: Query): (v: View)
    ensures v.store.Some? && v.store.value in Stores
    ensures !(v.showPurchase && v.showCart)
    ensures v.showPurchase <==> v.product.Some?
    ensures v.qty >= 1
    ensures v.product.Some? ==> v.product.value in catalog && v.size == SizeFrom(v.product.value, q.size)
    ensures v.product.None? ==> v.size.None? && v.qty == 1
  {
    var found := if Truthy(q.storeId) then FindStore(JsParseInt(q.storeId)) else None;
    var store := if found.Some? then found.value else Stores[0];
    var product := if Truthy(q.product) then FindProduct(catalog, JsParseInt(q.product)) else None;
    var search := if Truthy(q.search) then q.search.value else "";
    match product
    case Some(p) => View(Some(store), search, product, true, false, SizeFrom(p, q.size), QtyFrom(q.qty))
    case None => View(Some(store), search, None, false, q.cart == Some("open"), None, 1)
  }

  function FromUrl(catalog: seq<Product>, params: Params): View {
    FromQuery(catalog, QueryOf(params))
  }

  /** The store part of the URL: nothing for the default store. */
  function StoreParams(v: View): Params {
    if v.store.Some? && v.store.value.id != Stores[0].id then [("storeId", IntString(v.store.value.id))] else []
  }

  function SearchParams(v: View): Params {
    if v.search != "" then [("search", v.search)] else []
  }

  function SizeParams(v: View): Params
    requires v.product.Some?
  {
    if Truthy(v.size) && v.product.value.sizes != [] then [("size", v.size.value)] else []
  }

  function QtyParams(v: View): Params {
    if v.qty > 1 then [("qty", IntString(v.qty))] else []
  }

  /** The modal part: the product with its size and a quantity above 1,
      or `cart=open`. */
  function ModalParams(v: View): Params {
    if v.showPurchase && v.product.Some? then
      [("product", IntString(v.product.value.id))] + SizeParams(v) + QtyParams(v)
    else if v.showCart then [("cart", "open")]
    else []
  }

  /** The URL-sync effect: the parameters it writes for a page state. */
  function ToUrl(v: View): Params {
    StoreParams(v) + SearchParams(v) + ModalParams(v)
  }

  /** Product ids pick out products: the first product with an id is the
      only one. */
  predicate UniqueIds(catalog: seq<Product>) {
    forall i, j :: 0 <= i < j < |catalog| ==> catalog[i].id != catalog[j].id
  }

  /** A size the URL can carry for a product: one it offers, never empty;
      none for a product without sizes. */
  predicate SizeFits(p: Product, size: Option<string>) {
    if p.sizes == [] then size.None? else size.Some? && size.value in p.sizes && size.value != ""
  }

  /** The page states the URL can describe. */
  predicate Describable(catalog: seq<Product>, v: View) {
    && v.store.Some? && v.store.value in Stores
    && (v.showPurchase <==> v.product.Some?)
    && !(v.showPurchase && v.showCart)
    && (v.product.Some? ==> v.product.value in catalog && SizeFits(v.product.value, v.size) && v.qty >= 1)
  }

  /** What the URL keeps of a state: the size and quantity only while the
      purchase modal is open. */
  function Kept(v: View): View {
    if v.showPurchase then v else v.(size := None, qty := 1)
  }

  lemma FindProductIn(catalog: seq<Product>, p: Product)
    requires UniqueIds(catalog) && p in catalog
    ensures FindProduct(catalog, Some(p.id)) == Some(p)
  {
    if catalog[0] != p {
      assert catalog[0].id != p.id by {
        var j :| 0 <= j < |catalog| && catalog[j] == p;
        assert j != 0;
      }
      assert UniqueIds(catalog[1..]) by {
        forall i, j | 0 <= i < j < |catalog[1..]| ensures catalog[1..][i].id != catalog[1..][j].id {
          assert catalog[1..][i] == catalog[i + 1] && catalog[1..][j] == catalog[j + 1];
        }
      }
      FindProductIn(catalog[1..], p);
    }
  }

  const NoQuery := Query(None, None, None, None, None, None)

  /** A parameter list of one pair reads that pair's key only. */
  lemma QueryOfSingle(key: string, value: string)
    ensures QueryOf([(key, value)]) == Query(
      if key == "storeId" then Some(value) else None,
      if key == "search" then Some(value) else None,
      if key == "product" then Some(value) else None,
      if key == "size" then Some(value) else None,
      if key == "qty" then Some(value) else None,
      if key == "cart" then Some(value) else None)
  {
    GetSingle(key, value, "storeId");
    GetSingle(key, value, "search");
    GetSingle(key, value, "product");
    GetSingle(key, value, "size");
    GetSingle(key, value, "qty");
    GetSingle(key, value, "cart");
  }

  lemma GetSingle(key: string, value: string, wanted: string)
    ensures Get([(key, value)], wanted) == if key == wanted then Some(value) else None
  {
    var p := [(key, value)];
    assert p[0] == (key, value) && p[1..] == [];
  }

  /** The store part reads back as the store. */
  lemma StoreParamsRead(v: View)
    requires v.store.Some? && v.store.value in Stores
    ensures var q := QueryOf(StoreParams(v));
      q.search == q.product == q.size == q.qty == q.cart == None &&
      (if Truthy(q.storeId) then FindStore(JsParseInt(q.storeId)) else None).GetOr(Stores[0]) == v.store.value
  {
    if v.store.value.id != 1 {
      JsParseIntString(v.store.value.id);
      QueryOfSingle("storeId", IntString(v.store.value.id));
    }
  }

  /** The search part reads back as the search term. */
  lemma SearchParamsRead(v: View)
    ensures var q := QueryOf(SearchParams(v));
      q.storeId == q.product == q.size == q.qty == q.cart == None &&
      (if Truthy(q.search) then q.search.value else "") == v.search
  {
    if v.search != "" {
      QueryOfSingle("search", v.search);
    }
  }

  /** The purchase modal's part reads back as its product, size and
      quantity. */
  lemma PurchaseParamsRead(catalog: seq<Product>, v: View)
    requires UniqueIds(catalog) && Describable(catalog, v) && v.product.Some?
    ensures var q := QueryOf(ModalParams(v));
      q.storeId == q.search == q.cart == None &&
      Truthy(q.product) && FindProduct(catalog, JsParseInt(q.product)) == v.product &&
      SizeFrom(v.product.value, q.size) == v.size && QtyFrom(q.qty) == v.qty
  {
    var pr := v.product.value;
    var head: Params := [("product", IntString(pr.id))];
    JsParseIntString(pr.id);
    FindProductIn(catalog, pr);
    QueryOfSingle("product", IntString(pr.id));
    var sz := SizeParams(v);
    if sz != [] {
      QueryOfSingle("size", v.size.value);
    }
    var qt := QtyParams(v);
    if v.qty > 1 {
      JsParseIntString(v.qty);
      QueryOfSingle("qty", IntString(v.qty));
    }
    QueryOfConcat(head, sz);
    QueryOfConcat(head + sz, qt);
  }

  /** The cart part reads back as whether the cart is open. */
  lemma CartParamsRead(v: View)
    requires !v.showPurchase
    ensures var q := QueryOf(ModalParams(v));
      q.storeId == q.search == q.product == q.size == q.qty == None && (q.cart == Some("open")) == v.showCart
  {
    if v.showCart {
      QueryOfSingle("cart", "open");
    }
  }

  /** Round trip: reading back the URL written for a describable state
      restores its store, search, product, modals, and, while the purchase
      modal is open, its size and quantity. */
  lemma UrlRoundTrip(catalog: seq<Product>, v: View)
    requires UniqueIds(catalog) && Describable(catalog, v)
    ensures FromUrl(catalog, ToUrl(v)) == Kept(v)
  {
    var a, b, c := StoreParams(v), SearchParams(v), ModalParams(v);
    StoreParamsRead(v);
    SearchParamsRead(v);
    if v.product.Some? {
      PurchaseParamsRead(catalog, v);
    } else {
      CartParamsRead(v);
    }
    QueryOfConcat(a, b);
    QueryOfConcat(a + b, c);
  }

  /** Only a quantity above 1 is written, so a negative quantity typed in
      the field comes back from the URL as 1. */
  lemma NegativeQuantityNotKept(catalog: seq<Product>, v: View)
    requires UniqueIds(catalog) && Describable(catalog, v.(qty := 1)) && v.product.Some?
    requires v.qty == QuantityInput("-3")
    ensures v.qty == -3 && FromUrl(catalog, ToUrl(v)).qty == 1
  {
    QuantityInputString(-3);
    assert IntString(-3) == "-3";
    assert ToUrl(v) == ToUrl(v.(qty := 1));
    UrlRoundTrip(catalog, v.(qty := 1));
  }

  // ---------------------------------------------------------------------
  // Page state transitions

  /** The modals are never open together, and the purchase modal is open
      exactly while a product is selected. */
  predicate Coherent(v: View) {
    !(v.showPurchase && v.showCart) && (v.showPurchase <==> v.product.Some?)
  }

  /** `openPurchaseModal`: selects the product with its first size and a
      quantity of 1, and closes the cart. */
  function OpenPurchase(v: View, p: Product): (r: View)
    ensures Coherent(r) && r.showPurchase && r.product == Some(p)
  {
    v.(product := Some(p), size := FirstSize(p), qty := 1, showPurchase := true, showCart := false)
  }

  /** `closePurchaseModal`: deselects the product; size and quantity stay. */
  function ClosePurchase(v: View): (r: View)
    requires Coherent(v)
    ensures Coherent(r) && !r.showPurchase
  {
    v.(product := None, showPurchase := false)
  }

  /** `openCartModal`: closes the purchase modal and deselects the product. */
  function OpenCart(v: View): (r: View)
    ensures Coherent(r) && r.showCart
  {
    v.(showCart := true, showPurchase := false, product := None)
  }

  function CloseCart(v: View): (r: View)
    requires Coherent(v)
    ensures Coherent(r) && !r.showCart
  {
    v.(showCart := false)
  }

  /** `handleStoreChange`: the store whose id the selected value holds
      (none for an unknown value). */
  function SelectStore(v: View, value: string): (r: View)
    ensures r.store.Some? ==> r.store.value in Stores
  {
    v.(store := FindStore(JsParseInt(Some(value))))
  }

  /** The transitions keep the state describable by the URL, given a
      catalogue product with non-empty sizes. */
  lemma TransitionsDescribable(catalog: seq<Product>, v: View, p: Product)
    requires Describable(catalog, v)
    requires p in catalog && forall s :: s in p.sizes ==> s != ""
    ensures Describable(catalog, OpenPurchase(v, p))
    ensures Describable(catalog, ClosePurchase(v))
    ensures Describable(catalog, OpenCart(v))
    ensures Describable(catalog, CloseCart(v))
  {
  }

  // ---------------------------------------------------------------------
  // Products, prices and the cart

  /** `filteredProducts`: the products whose lower-cased name contains the
      lower-cased search term, in catalogue order. */
  function Filtered(catalog: seq<Product>, search: string): (r: seq<Product>)
    ensures forall p :: p in r <==> p in catalog && Contains(Lower(p.name), Lower(search))
    ensures Sublist(r, catalog)
  {
    if catalog == [] then []
    else
      var rest := Filtered(catalog[1..], search);
      assert forall p :: p in catalog <==> p == catalog[0] || p in catalog[1..];
      if Contains(Lower(catalog[0].name), Lower(search)) then [catalog[0]] + rest else rest
  }

  /** `prices.find(price => price.storeId === storeId)`. */
  function FindPrice(prices: seq<Price>, storeId: int): (r: Option<Price>)
    ensures r.Some? ==> r.value in prices && r.value.storeId == storeId
    ensures r.None? <==> forall p :: p in prices ==> p.storeId != storeId
  {
    if prices == [] then None
    else if prices[0].storeId == storeId then Some(prices[0])
    else FindPrice(prices[1..], storeId)
  }

  datatype CartItem = CartItem(productId: int, name: string, price: real, color: Option<string>,
                               size: Option<string>, quantity: int)

  /** `handleAdd`: the item for the selected product at the current store,
      priced 0 where the store has no price; reading the id of a missing
      store raises a TypeError. */
  function ItemFor(p: Product, store: Option<Store>, color: Option<string>, size: Option<string>, qty: int): (r: Result<CartItem>)
    ensures r.Err? <==> store.None?
    ensures r.Ok? ==> r.value.productId == p.id && r.value.size == size && r.value.quantity == qty
    ensures r.Ok? && (forall q :: q in p.prices ==> q.storeId != store.value.id) ==> r.value.price == 0.0
    ensures r.Ok? && FindPrice(p.prices, store.value.id).Some? ==>
      r.value.price == FindPrice(p.prices, store.value.id).value.amount
  {
    match store
    case None => Err(TypeError)
    case Some(s) =>
      var price := match FindPrice(p.prices, s.id) case Some(q) => q.amount case None => 0.0;
      Ok(CartItem(p.id, p.name, price, color, size, qty))
  }

  /** `prev.filter((_, i) => i !== index)`. */
  function RemoveAt<T>(s: seq<T>, index: int): (r: seq<T>)
    ensures 0 <= index < |s| ==> r == s[..index] + s[index + 1..]
    ensures !(0 <= index < |s|) ==> r == s
  {
    if s == [] then []
    else
      var rest := RemoveAt(s[1..], index - 1);
      if index == 0 then rest
      else
        assert index != 0 && 0 <= index < |s| ==> s[..index] == [s[0]] + s[1..][..index - 1];
        [s[0]] + rest
  }

  /** The page's state: the `useState` hooks of `App`. */
  class Shop {
    var store: Option<Store>
    var search: string
    var cart: seq<CartItem>
    var product: Option<Product>
    var showPurchase: bool
    var showCart: bool
    var size: Option<string>
    var qty: int

    function State(): View
      reads this
    {
      View(store, search, product, showPurchase, showCart, size, qty)
    }

    predicate Valid()
      reads this
    {
      Coherent(State())
    }

    /** The page opened at a URL, with an empty cart. */
    constructor (catalog: seq<Product>, params: Params)
      ensures State() == FromUrl(catalog, params) && cart == [] && Valid()
    {
      var v := FromUrl(catalog, params);
      store, search, product := v.store, v.search, v.product;
      showPurchase, showCart, size, qty := v.showPurchase, v.showCart, v.size, v.qty;
      cart := [];
    }

    method Apply(v: View)
      modifies this
      ensures State() == v && cart == old(cart)
    {
      store, search, product := v.store, v.search, v.product;
      showPurchase, showCart, size, qty := v.showPurchase, v.showCart, v.size, v.qty;
    }

    method OpenPurchaseModal(p: Product)
      modifies this
      ensures State() == OpenPurchase(old(State()), p) && cart == old(cart) && Valid()
    {
      Apply(OpenPurchase(State(), p));
    }

    method ClosePurchaseModal()
      requires Valid()
      modifies this
      ensures State() == ClosePurchase(old(State())) && cart == old(cart) && Valid()
    {
      Apply(ClosePurchase(State()));
    }

    method OpenCartModal()
      modifies this
      ensures State() == OpenCart(old(State())) && cart == old(cart) && Valid()
    {
      Apply(OpenCart(State()));
    }

    method CloseCartModal()
      requires Valid()
      modifies this
      ensures State() == CloseCart(old(State())) && cart == old(cart) && Valid()
    {
      Apply(CloseCart(State()));
    }

    method ChangeStore(value: string)
      requires Valid()
      modifies this
      ensures State() == SelectStore(old(State()), value) && cart == old(cart) && Valid()
    {
      Apply(SelectStore(State(), value));
    }

    method TypeSearch(text: string)
      requires Valid()
      modifies this
      ensures State() == old(State()).(search := text) && cart == old(cart) && Valid()
    {
      search := text;
    }

    method ChooseSize(value: string)
      requires Valid()
      modifies this
      ensures State() == old(State()).(size := Some(value)) && cart == old(cart) && Valid()
    {
      size := Some(value);
    }

    /** The quantity field's change handler. */
    method TypeQuantity(text: string)
      requires Valid()
      modifies this
      ensures State() == old(State()).(qty := QuantityInput(text)) && cart == old(cart) && Valid()
    {
      qty := QuantityInput(text);
    }

    /** `addToCart`: appends the item and closes the purchase modal. */
    method AddToCart(item: CartItem)
      requires Valid()
      modifies this
      ensures cart == old(cart) + [item]
      ensures State() == ClosePurchase(old(State())) && Valid()
    {
      cart := cart + [item];
      ClosePurchaseModal();
    }

    /** `removeCartItem`: drops exactly the item at `index`. */
    method RemoveCartItem(index: int)
      requires Valid()
      modifies this
      ensures cart == RemoveAt(old(cart), index) && State() == old(State()) && Valid()
    {
      cart := RemoveAt(cart, index);
    }

    /** `handleCheckout`: empties the cart and closes it. */
    method Checkout()
      requires Valid()
      modifies this
      ensures cart == [] && State() == CloseCart(old(State())) && Valid()
    {
      cart := [];
      CloseCartModal();
    }
  }
}
