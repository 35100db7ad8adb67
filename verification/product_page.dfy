/**
 * The product page: the server-side loader that fetches the product and the
 * shop's gate configuration, the rule that decides between spinner, lock
 * screen and storefront, the quantity selector, the cart item count, and the
 * cart handlers that issue Storefront mutations and mirror the returned cart.
 *
 * Every Storefront call is an oracle: the handlers choose a request and are
 * given its reply. Browser storage is a map field.
 */
module ProductPage {
  import opened Options

  // ---------------------------------------------------------------------------
  // Storefront values
  // ---------------------------------------------------------------------------

  datatype Variant = Variant(id: string, title: string, availableForSale: bool)
  datatype Product = Product(id: string, title: string, variants: seq<Variant>)

  /** A shop metafield; its `value` may be null. */
  datatype Metafield = Metafield(value: Option<string>)
  datatype Shop = Shop(gateEnabled: Option<Metafield>, gatePassword: Option<Metafield>)

  datatype Money = Money(amount: string, currencyCode: string)
  datatype CartLine = CartLine(id: string, quantity: nat, merchandiseId: string)

  /** The cart projection every mutation returns; the subtotal is the API's own. */
  datatype Cart = Cart(id: string, checkoutUrl: string, lines: seq<CartLine>, subtotal: Money)

  // ---------------------------------------------------------------------------
  // Loader
  // ---------------------------------------------------------------------------

  datatype Env = Env(storeDomain: Option<string>, storefrontToken: Option<string>)
  datatype QueryData = QueryData(product: Option<Product>, shop: Option<Shop>)

  /** The product query's JSON answer: whether `errors` is present, and `data`. */
  datatype QueryReply = QueryReply(hasErrors: bool, data: Option<QueryData>)

  datatype LoadError = MissingCredentials | FetchFailed | QueryFailed | ProductNotFound

  datatype PageData = PageData(product: Product, shop: Option<Shop>, gateEnabled: bool,
                               gatePassword: string, storeDomain: string, storefrontToken: string)

  datatype LoadResult = Loaded(page: PageData) | LoadFailed(error: LoadError)

  /** `data.shop?.gateEnabled?.value === 'true'`. */
  function GateEnabled(shop: Option<Shop>): (b: bool)
    ensures b <==> shop.Some? && shop.value.gateEnabled.Some? && shop.value.gateEnabled.value.value == Some("true")
  {
    match shop
    case None => false
    case Some(sh) =>
      match sh.gateEnabled
      case None => false
      case Some(field) => field.value == Some("true")
  }

  /** `data.shop?.gatePassword?.value || ''`. */
  function GatePassword(shop: Option<Shop>): (p: string)
    ensures p != "" ==> shop.Some? && shop.value.gatePassword.Some? && shop.value.gatePassword.value.value == Some(p)
    ensures shop.Some? && shop.value.gatePassword.Some? && Truthy(shop.value.gatePassword.value.value) ==>
      p == shop.value.gatePassword.value.value.value
  {
    if shop.Some? && shop.value.gatePassword.Some? && Truthy(shop.value.gatePassword.value.value) then
      shop.value.gatePassword.value.value.value
    else
      ""
  }

  /**
   * `loader`: credentials are checked before any request; `reply` is None when
   * the fetch or the JSON parse throws.
   */
  function Loader(env: Env, reply: Option<QueryReply>): (r: LoadResult)
    ensures r == LoadFailed(MissingCredentials) <==> !Truthy(env.storeDomain) || !Truthy(env.storefrontToken)
    ensures Truthy(env.storeDomain) && Truthy(env.storefrontToken) && reply.None? ==> r == LoadFailed(FetchFailed)
    ensures Truthy(env.storeDomain) && Truthy(env.storefrontToken) && reply.Some? && reply.value.hasErrors ==>
      r == LoadFailed(QueryFailed)
    ensures
      && Truthy(env.storeDomain) && Truthy(env.storefrontToken) && reply.Some? && !reply.value.hasErrors
      && (reply.value.data.None? || reply.value.data.value.product.None?)
      ==> r == LoadFailed(ProductNotFound)
    ensures r.LoadFailed? && r.error == FetchFailed ==> reply.None?
    ensures r.LoadFailed? && r.error == QueryFailed ==> reply.Some? && reply.value.hasErrors
    ensures r.LoadFailed? && r.error == ProductNotFound ==>
      reply.Some? && !reply.value.hasErrors && (reply.value.data.None? || reply.value.data.value.product.None?)
    ensures r.Loaded? <==>
      && Truthy(env.storeDomain) && Truthy(env.storefrontToken)
      && reply.Some? && !reply.value.hasErrors
      && reply.value.data.Some? && reply.value.data.value.product.Some?
    ensures r.Loaded? ==>
      var data := reply.value.data.value;
      && r.page.product == data.product.value && r.page.shop == data.shop
      && (r.page.gateEnabled <==> GateEnabled(data.shop))
      && r.page.gatePassword == GatePassword(data.shop)
      && r.page.storeDomain == env.storeDomain.value && r.page.storefrontToken == env.storefrontToken.value
  {
    if !Truthy(env.storeDomain) || !Truthy(env.storefrontToken) then
      LoadFailed(MissingCredentials)
    else
      match reply
      case None => LoadFailed(FetchFailed)
      case Some(QueryReply(hasErrors, data)) =>
        if hasErrors then
          LoadFailed(QueryFailed)
        else if data.None? || data.value.product.None? then
          LoadFailed(ProductNotFound)
        else
          var shop := data.value.shop;
          Loaded(PageData(data.value.product.value, shop, GateEnabled(shop), GatePassword(shop),
                          env.storeDomain.value, env.storefrontToken.value))
  }

  // ---------------------------------------------------------------------------
  // Gate visibility
  // ---------------------------------------------------------------------------

  datatype Screen = Spinner | LockScreen | Storefront

  /** `localStorage.getItem('gateUnlocked') === 'true'`. */
  predicate StoredUnlocked(storage: map<string, string>) {
    "gateUnlocked" in storage && storage["gateUnlocked"] == "true"
  }

  /** What `Index` renders: the lock screen test comes first, then the spinner. */
  function ScreenFor(gateEnabled: bool, unlocked: bool, checking: bool): (v: Screen)
    ensures checking ==> v == Spinner
    ensures !checking ==> (v == LockScreen <==> gateEnabled && !unlocked)
    ensures v == Storefront <==> !checking && (!gateEnabled || unlocked)
  {
    if gateEnabled && !unlocked && !checking then LockScreen
    else if checking then Spinner
    else Storefront
  }

  // ---------------------------------------------------------------------------
  // Quantity selector and cart count
  // ---------------------------------------------------------------------------

  /** `Math.max(1, quantity - 1)`. */
  function Decremented(quantity: int): (q: int)
    ensures q >= 1
    ensures q == quantity - 1 || q == 1
    ensures quantity >= 2 ==> q == quantity - 1
  {
    if quantity - 1 > 1 then quantity - 1 else 1
  }

  /** The total quantity of a list of lines. */
  function TotalQuantity(lines: seq<CartLine>): (n: nat)
    ensures forall i :: 0 <= i < |lines| ==> lines[i].quantity <= n
  {
    if lines == [] then 0 else lines[0].quantity + TotalQuantity(lines[1..])
  }

  lemma {:induction false} TotalQuantityAppend(a: seq<CartLine>, b: seq<CartLine>)
    ensures TotalQuantity(a + b) == TotalQuantity(a) + TotalQuantity(b)
  {
    if a == [] {
      assert a + b == b;
    } else {
      assert (a + b)[1..] == a[1..] + b;
      TotalQuantityAppend(a[1..], b);
    }
  }

  /** The total is zero exactly when every line has quantity zero. */
  lemma {:induction false} TotalQuantityZero(lines: seq<CartLine>)
    ensures TotalQuantity(lines) == 0 <==> forall i :: 0 <= i < |lines| ==> lines[i].quantity == 0
  {
    if lines != [] {
      TotalQuantityZero(lines[1..]);
      assert forall i :: 1 <= i < |lines| ==> lines[i] == lines[1..][i - 1];
    }
  }

  /** `reduce((total, item) => total + item.quantity, acc)`: a left fold. */
  function SumQuantities(acc: int, lines: seq<CartLine>): (total: int)
    ensures total == acc + TotalQuantity(lines)
    decreases |lines|
  {
    if lines == [] then acc
    else
      TotalQuantityAppend([lines[0]], lines[1..]);
      assert [lines[0]] + lines[1..] == lines;
      SumQuantities(acc + lines[0].quantity, lines[1..])
  }

  /** `cartItemsCount`: the sum of line quantities, 0 without a cart. */
  function CartItemsCount(cart: Option<Cart>): (n: nat)
    ensures cart.None? || cart.value.lines == [] ==> n == 0
    ensures cart.Some? ==> n == TotalQuantity(cart.value.lines)
  {
    match cart
    case None => 0
    case Some(c) => SumQuantities(0, c.lines)
  }

  // ---------------------------------------------------------------------------
  // Cart mutations
  // ---------------------------------------------------------------------------

  datatype LineInput = LineInput(merchandiseId: string, quantity: int)
  datatype LineUpdate = LineUpdate(id: string, quantity: int)

  /** The Storefront mutation a handler issues, with its variables. */
  datatype CartRequest =
    | CreateCart(lines: seq<LineInput>)
    | AddLines(cartId: string, lines: seq<LineInput>)
    | UpdateLines(cartId: string, updates: seq<LineUpdate>)
    | RemoveLines(cartId: string, lineIds: seq<string>)

  /**
   * A mutation's outcome: it threw (network error, or no `data` in the answer),
   * or it returned the mutation payload's `cart`, which may be null.
   */
  datatype MutationReply = Threw | Returned(cart: Option<Cart>)

  /** `cart?.id` is truthy. */
  predicate HasCartId(cart: Option<Cart>) {
    cart.Some? && cart.value.id != ""
  }

  datatype PageState = PageState(
    selectedVariant: Variant,
    quantity: int,
    isCartOpen: bool,
    cart: Option<Cart>,
    isLoading: bool,
    isShopPayLoading: bool,
    isGateUnlocked: bool,
    isCheckingGate: bool,
    storage: map<string, string>,
    location: Option<string>)

  /** The state after a handler, and the mutation it issued, if any. */
  datatype Step = Step(state: PageState, request: Option<CartRequest>)

  /** The one line every add and buy request carries. */
  function LineFor(s: PageState): LineInput {
    LineInput(s.selectedVariant.id, s.quantity)
  }

  /** `handleAddToCart`. */
  function AddToCart(s: PageState, reply: MutationReply): (r: Step)
    ensures HasCartId(s.cart) ==> r.request == Some(AddLines(s.cart.value.id, [LineFor(s)]))
    ensures !HasCartId(s.cart) ==> r.request == Some(CreateCart([LineFor(s)]))
    // the mirror becomes whatever the mutation returned
    ensures r.state.cart == if reply.Returned? then reply.cart else s.cart
    // only a created cart's id is stored
    ensures r.state.storage != s.storage ==>
      !HasCartId(s.cart) && reply.Returned? && reply.cart.Some? &&
      r.state.storage == s.storage["cartId" := reply.cart.value.id]
    ensures !HasCartId(s.cart) && reply.Returned? && reply.cart.Some? ==>
      "cartId" in r.state.storage && r.state.storage["cartId"] == reply.cart.value.id
    ensures r.state.isCartOpen <==>
      s.isCartOpen || (reply.Returned? && (HasCartId(s.cart) || reply.cart.Some?))
    ensures !r.state.isLoading
    ensures r.state.(cart := s.cart, storage := s.storage, isCartOpen := s.isCartOpen, isLoading := s.isLoading) == s
  {
    var s := s.(isLoading := true);
    var line := LineFor(s);
    if HasCartId(s.cart) then
      var request := AddLines(s.cart.value.id, [line]);
      var s := if reply.Returned? then s.(cart := reply.cart, isCartOpen := true) else s;
      Step(s.(isLoading := false), Some(request))
    else
      var s :=
        match reply
        case Threw => s
        // `newCart.id` throws on a null cart, after the mirror was set
        case Returned(None) => s.(cart := None)
        case Returned(Some(c)) => s.(cart := Some(c), storage := s.storage["cartId" := c.id], isCartOpen := true);
      Step(s.(isLoading := false), Some(CreateCart([line])))
  }

  /** `handleBuyNow`: always a fresh one-line cart, then a redirect to its checkout. */
  function BuyNow(s: PageState, reply: MutationReply): (r: Step)
    ensures r.request == Some(CreateCart([LineFor(s)]))
    ensures r.state.cart == s.cart && r.state.storage == s.storage
    ensures reply.Returned? && reply.cart.Some? ==> r.state == s.(isShopPayLoading := true, location := Some(reply.cart.value.checkoutUrl))
    // the loading flag is reset only on error
    ensures !(reply.Returned? && reply.cart.Some?) ==> r.state == s.(isShopPayLoading := false)
  {
    var s := s.(isShopPayLoading := true);
    var request := CreateCart([LineFor(s)]);
    match reply
    case Returned(Some(c)) => Step(s.(location := Some(c.checkoutUrl)), Some(request))
    case _ => Step(s.(isShopPayLoading := false), Some(request))
  }

  /** `updateCartItemQuantity`. */
  function UpdateQuantity(s: PageState, lineId: string, newQuantity: int, reply: MutationReply): (r: Step)
    ensures !HasCartId(s.cart) ==> r == Step(s, None)
    ensures HasCartId(s.cart) && newQuantity <= 0 ==> r.request == Some(RemoveLines(s.cart.value.id, [lineId]))
    ensures HasCartId(s.cart) && newQuantity > 0 ==>
      r.request == Some(UpdateLines(s.cart.value.id, [LineUpdate(lineId, newQuantity)]))
    ensures r.request.Some? && r.request.value.UpdateLines? ==> newQuantity > 0
    ensures r.state == if HasCartId(s.cart) && reply.Returned? then s.(cart := reply.cart) else s
  {
    if !HasCartId(s.cart) then
      Step(s, None)
    else
      var cartId := s.cart.value.id;
      var request :=
        if newQuantity <= 0 then RemoveLines(cartId, [lineId])
        else UpdateLines(cartId, [LineUpdate(lineId, newQuantity)]);
      var s := if reply.Returned? then s.(cart := reply.cart) else s;
      Step(s, Some(request))
  }

  // ---------------------------------------------------------------------------
  // The page
  // ---------------------------------------------------------------------------

  class Index {
    const gateEnabled: bool
    var selectedVariant: Variant
    var quantity: int
    var isCartOpen: bool
    var cart: Option<Cart>
    var isLoading: bool
    var isShopPayLoading: bool
    var isGateUnlocked: bool
    var isCheckingGate: bool
    var storage: map<string, string>
    var location: Option<string>

    function View(): PageState
      reads this
    {
      PageState(selectedVariant, quantity, isCartOpen, cart, isLoading, isShopPayLoading,
                isGateUnlocked, isCheckingGate, storage, location)
    }

    /** The quantity never drops below 1, and nothing is unlocked before the stored flag is read. */
    ghost predicate Valid()
      reads this
    {
      quantity >= 1 && (isCheckingGate ==> !isGateUnlocked)
    }

    function CurrentScreen(): Screen
      reads this
    {
      ScreenFor(gateEnabled, isGateUnlocked, isCheckingGate)
    }

    /** The first render: first variant, quantity 1, no cart, gate still being checked. */
    constructor (page: PageData, storage: map<string, string>)
      requires |page.product.variants| > 0
      ensures Valid() && gateEnabled == page.gateEnabled
      ensures View() == PageState(page.product.variants[0], 1, false, None, false, false, false, true, storage, None)
      ensures CurrentScreen() == Spinner
    {
      gateEnabled := page.gateEnabled;
      selectedVariant := page.product.variants[0];
      quantity := 1;
      isCartOpen := false;
      cart := None;
      isLoading, isShopPayLoading := false, false;
      isGateUnlocked, isCheckingGate := false, true;
      this.storage := storage;
      location := None;
    }

    /** The mount effect: read the stored unlock flag, then stop checking. */
    method CheckStoredUnlock()
      requires Valid() && isCheckingGate
      modifies this
      ensures Valid()
      ensures View() == old(View()).(isGateUnlocked := StoredUnlocked(storage), isCheckingGate := false)
      ensures CurrentScreen() == LockScreen <==> gateEnabled && !StoredUnlocked(storage)
    {
      var unlocked := "gateUnlocked" in storage && storage["gateUnlocked"] == "true";
      isGateUnlocked := unlocked;
      isCheckingGate := false;
    }

    /** `onUnlock`, which only the rendered lock screen can call. */
    method Unlock()
      requires Valid() && CurrentScreen() == LockScreen
      modifies this
      ensures Valid()
      ensures View() == old(View()).(isGateUnlocked := true)
      ensures CurrentScreen() == Storefront
    {
      isGateUnlocked := true;
    }

    method DecrementQuantity()
      requires Valid()
      modifies this
      ensures Valid()
      ensures View() == old(View()).(quantity := Decremented(old(quantity)))
    {
      quantity := if quantity - 1 > 1 then quantity - 1 else 1;
    }

    method IncrementQuantity()
      requires Valid()
      modifies this
      ensures Valid()
      ensures View() == old(View()).(quantity := old(quantity) + 1)
    {
      quantity := quantity + 1;
    }

    method HandleAddToCart(reply: MutationReply) returns (request: CartRequest)
      requires Valid()
      modifies this
      ensures Valid()
      ensures Step(View(), Some(request)) == AddToCart(old(View()), reply)
    {
      isLoading := true;
      var line := LineInput(selectedVariant.id, quantity);
      if cart.Some? && cart.value.id != "" {
        request := AddLines(cart.value.id, [line]);
        if reply.Returned? {
          cart := reply.cart;
          isCartOpen := true;
        }
      } else {
        request := CreateCart([line]);
        match reply {
          case Threw =>
          case Returned(None) =>
            cart := None;
          case Returned(Some(c)) =>
            cart := Some(c);
            storage := storage["cartId" := c.id];
            isCartOpen := true;
        }
      }
      isLoading := false;
    }

    method HandleBuyNow(reply: MutationReply) returns (request: CartRequest)
      requires Valid()
      modifies this
      ensures Valid()
      ensures Step(View(), Some(request)) == BuyNow(old(View()), reply)
    {
      isShopPayLoading := true;
      request := CreateCart([LineInput(selectedVariant.id, quantity)]);
      if reply.Returned? && reply.cart.Some? {
        location := Some(reply.cart.value.checkoutUrl);
      } else {
        isShopPayLoading := false;
      }
    }

    method UpdateCartItemQuantity(lineId: string, newQuantity: int, reply: MutationReply)
      returns (request: Option<CartRequest>)
      requires Valid()
      modifies this
      ensures Valid()
      ensures Step(View(), request) == UpdateQuantity(old(View()), lineId, newQuantity, reply)
    {
      if !(cart.Some? && cart.value.id != "") {
        return None;
      }
      if newQuantity <= 0 {
        request := Some(RemoveLines(cart.value.id, [lineId]));
      } else {
        request := Some(UpdateLines(cart.value.id, [LineUpdate(lineId, newQuantity)]));
      }
      if reply.Returned? {
        cart := reply.cart;
      }
    }
  }
}
