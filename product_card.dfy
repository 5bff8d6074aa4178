/**
 * The storefront's product card: the wishlist and in-cart flags, the
 * add-to-cart popup with its default size and colour, the quantity clamp,
 * and the size/colour guard before the cart request. Whether a login token
 * is stored and what the server answers are parameters of the handlers.
 */
module ProductCard {
  import opened Common
  import UserModel

  function Max(a: int, b: int): int
  {
    if a >= b then a else b
  }

  function Min(a: int, b: int): int
  {
    if a <= b then a else b
  }

  /** `productDetails.quantity || 10`: the available quantity, or 10 when it is missing or 0. */
  function Cap(available: Option<int>): (r: int)
    ensures r != 0
    ensures r == 10 || available == Some(r)
    ensures available.Some? && available.value != 0 ==> r == available.value
    ensures available.None? || available.value == 0 ==> r == 10
  {
    if available.Some? && available.value != 0 then available.value else 10
  }

  /**
   * The quantity input's handler: `max(1, min(cap, parseInt(value) || 1))`.
   * input is None when the text does not parse.
   */
  function ClampQuantity(available: Option<int>, input: Option<int>): (q: int)
    ensures q >= 1
    ensures Cap(available) >= 1 ==> q <= Cap(available)
    ensures input.None? || input.value == 0 ==> q == 1
    ensures input.Some? && 1 <= input.value <= Cap(available) ==> q == input.value
    ensures input.Some? && 1 <= Cap(available) < input.value ==> q == Cap(available)
    ensures input.Some? && input.value < 1 ==> q == 1
    ensures Cap(available) < 1 ==> q == 1
  {
    Max(1, Min(Cap(available), if input.Some? && input.value != 0 then input.value else 1))
  }

  /** Clamping is idempotent: a clamped quantity typed in again stays as it is. */
  lemma ClampIdempotent(available: Option<int>, input: Option<int>)
    ensures ClampQuantity(available, Some(ClampQuantity(available, input))) == ClampQuantity(available, input)
  {
  }

  /** With nothing known about the stock, the cap is 10. */
  lemma ClampWithoutStock(input: int)
    ensures 1 <= ClampQuantity(None, Some(input)) <= 10
    ensures ClampQuantity(None, Some(input)) == 10 <== input >= 10
  {
  }

  /** `fetchedProduct.sizes[0] || ''`: the first entry, or '' for an empty list. */
  function FirstOrEmpty(xs: seq<string>): (r: string)
    ensures xs == [] ==> r == ""
    ensures xs != [] ==> r == xs[0]
  {
    if xs == [] then "" else xs[0]
  }

  /** The product details fetched for the popup; a list that is missing in the answer is None. */
  datatype FetchedProduct = FetchedProduct(sizes: Option<seq<string>>, colors: Option<seq<string>>, quantity: Option<int>)

  /** Where a click on the cart button ends. */
  datatype ClickOutcome = ClickNeedsLogin | GoToCart | LoadFailed | ShowPopup(details: FetchedProduct, size: string, color: string)

  /**
   * `handleAddToCartClick` after the token and in-cart checks. fetched is the
   * product in the server's answer, None when the request fails or the
   * answer has none.
   */
  function OpenPopup(fetched: Option<FetchedProduct>): (r: ClickOutcome)
    ensures r.LoadFailed? <==> fetched.None? || fetched.value.sizes.None? || fetched.value.colors.None?
    ensures r.ShowPopup? <==> !r.LoadFailed?
    ensures r.ShowPopup? ==> r.details == fetched.value
    ensures r.ShowPopup? ==> r.size == FirstOrEmpty(fetched.value.sizes.value)
    ensures r.ShowPopup? ==> r.color == FirstOrEmpty(fetched.value.colors.value)
  {
    if fetched.None? || fetched.value.sizes.None? || fetched.value.colors.None? then LoadFailed
    else ShowPopup(fetched.value, FirstOrEmpty(fetched.value.sizes.value), FirstOrEmpty(fetched.value.colors.value))
  }

  /** A product listing its sizes and colours opens with the first of each selected. */
  lemma PopupDefaultsToFirst(sizes: seq<string>, colors: seq<string>, quantity: Option<int>)
    requires sizes != [] && colors != []
    ensures OpenPopup(Some(FetchedProduct(Some(sizes), Some(colors), quantity))).size == sizes[0]
    ensures OpenPopup(Some(FetchedProduct(Some(sizes), Some(colors), quantity))).color == colors[0]
  {
  }

  /** Where a click on the popup's confirm button ends. */
  datatype AddOutcome = NeedsSizeAndColor | AddNeedsLogin | Request(req: UserModel.CartRequest)

  /** `handleAddToCart` up to the request: the size/colour guard, then the token. */
  function AddToCartDecision(productId: string, quantity: int, size: string, color: string, hasToken: bool): (r: AddOutcome)
    ensures r == NeedsSizeAndColor <==> size == "" || color == ""
    ensures r == AddNeedsLogin <==> size != "" && color != "" && !hasToken
    ensures r.Request? <==> size != "" && color != "" && hasToken
    ensures r.Request? ==> r.req == UserModel.CartRequest(productId, quantity, size, color)
  {
    if size == "" || color == "" then NeedsSizeAndColor
    else if !hasToken then AddNeedsLogin
    else Request(UserModel.CartRequest(productId, quantity, size, color))
  }

  /**
   * Every request the card sends passes the cart update's guard on the
   * server: the size and colour are non-empty and the quantity is at least 1.
   */
  lemma SentRequestsPassServerGuard(productId: string, quantity: int, size: string, color: string, hasToken: bool)
    requires productId != "" && quantity >= 1
    requires AddToCartDecision(productId, quantity, size, color, hasToken).Request?
    ensures UserModel.HasRequiredFields(AddToCartDecision(productId, quantity, size, color, hasToken).req)
  {
  }

  /**
   * The card flips its heart after each accepted wishlist toggle; when it
   * started in agreement with the server's list, and that list holds each
   * product once, it stays in agreement.
   */
  lemma WishlistFlagTracksServer(ws: seq<UserModel.WishlistEntry>, pid: UserModel.ProductId, now: UserModel.Timestamp, flag: bool)
    requires UserModel.UniqueWishlist(ws) && flag == UserModel.InWishlist(ws, pid)
    ensures !flag == UserModel.InWishlist(UserModel.Toggled(ws, pid, now), pid)
  {
    UserModel.ToggleFlipsMembership(ws, pid, now, pid);
  }

  /** The user's lists as the card's effect reads them: product ids of the wishlist and of the cart. */
  datatype UserLists = UserLists(wishlistIds: seq<string>, cartIds: seq<string>)

  class ProductCardView {
    const productId: string
    var isWishlisted: bool
    var isInCart: bool
    var showPopup: bool
    var productDetails: Option<FetchedProduct>
    var selectedSize: string
    var selectedColor: string
    var quantity: int

    /** The quantity the popup holds is always at least 1. */
    ghost predicate Valid()
      reads this
    {
      quantity >= 1
    }

    constructor (productId: string)
      ensures this.productId == productId && Valid()
      ensures !isWishlisted && !isInCart && !showPopup && productDetails == None
      ensures selectedSize == "" && selectedColor == "" && quantity == 1
    {
      this.productId := productId;
      isWishlisted, isInCart, showPopup, productDetails := false, false, false, None;
      selectedSize, selectedColor, quantity := "", "", 1;
    }

    /** The mount effect: with a token and an answer, the flags say whether the product is in each list. */
    method FetchUserData(hasToken: bool, response: Option<UserLists>)
      modifies this
      ensures hasToken && response.Some? ==>
                isWishlisted == (productId in response.value.wishlistIds) && isInCart == (productId in response.value.cartIds)
      ensures !(hasToken && response.Some?) ==> isWishlisted == old(isWishlisted) && isInCart == old(isInCart)
      ensures showPopup == old(showPopup) && productDetails == old(productDetails)
      ensures selectedSize == old(selectedSize) && selectedColor == old(selectedColor) && quantity == old(quantity)
    {
      if !hasToken || response.None? {
        return;
      }
      isWishlisted := productId in response.value.wishlistIds;
      isInCart := productId in response.value.cartIds;
    }

    /** `handleToggleWishlist`; ok is whether the server accepted the toggle. needsLogin is true when no token is stored. */
    method HandleToggleWishlist(hasToken: bool, ok: bool) returns (needsLogin: bool)
      modifies this
      ensures needsLogin <==> !hasToken
      ensures isWishlisted == (if hasToken && ok then !old(isWishlisted) else old(isWishlisted))
      ensures isInCart == old(isInCart) && showPopup == old(showPopup) && productDetails == old(productDetails)
      ensures selectedSize == old(selectedSize) && selectedColor == old(selectedColor) && quantity == old(quantity)
    {
      if !hasToken {
        return true;
      }
      needsLogin := false;
      if ok {
        isWishlisted := !isWishlisted;
      }
    }

    /**
     * `handleAddToCartClick`. requested says whether the product was fetched:
     * never without a token and never when it is already in the cart.
     */
    method HandleAddToCartClick(hasToken: bool, fetched: Option<FetchedProduct>) returns (outcome: ClickOutcome, requested: bool)
      modifies this
      ensures requested <==> hasToken && !old(isInCart)
      ensures !hasToken ==> outcome == ClickNeedsLogin
      ensures hasToken && old(isInCart) ==> outcome == GoToCart
      ensures requested ==> outcome == OpenPopup(fetched)
      ensures outcome.ShowPopup? ==>
                showPopup && productDetails == Some(outcome.details)
                && selectedSize == outcome.size && selectedColor == outcome.color
      ensures !outcome.ShowPopup? ==>
                showPopup == old(showPopup) && productDetails == old(productDetails)
                && selectedSize == old(selectedSize) && selectedColor == old(selectedColor)
      ensures isWishlisted == old(isWishlisted) && isInCart == old(isInCart) && quantity == old(quantity)
    {
      if !hasToken {
        return ClickNeedsLogin, false;
      }
      if isInCart {
        return GoToCart, false;
      }
      requested := true;
      outcome := OpenPopup(fetched);
      if outcome.ShowPopup? {
        productDetails := Some(outcome.details);
        selectedSize := outcome.size;
        selectedColor := outcome.color;
        showPopup := true;
      }
    }

    /** The quantity input, which the popup renders only once the details are loaded. */
    method HandleQuantityInput(input: Option<int>)
      requires productDetails.Some?
      modifies this
      ensures productDetails == old(productDetails) && quantity == ClampQuantity(old(productDetails).value.quantity, input) && Valid()
      ensures isWishlisted == old(isWishlisted) && isInCart == old(isInCart) && showPopup == old(showPopup)
      ensures selectedSize == old(selectedSize) && selectedColor == old(selectedColor)
    {
      quantity := ClampQuantity(productDetails.value.quantity, input);
    }

    /** The size select; its placeholder option has the value "". */
    method SelectSize(size: string)
      modifies this
      ensures selectedSize == size
      ensures isWishlisted == old(isWishlisted) && isInCart == old(isInCart) && showPopup == old(showPopup)
      ensures productDetails == old(productDetails) && selectedColor == old(selectedColor) && quantity == old(quantity)
    {
      selectedSize := size;
    }

    /** The colour select; its placeholder option has the value "". */
    method SelectColor(color: string)
      modifies this
      ensures selectedColor == color
      ensures isWishlisted == old(isWishlisted) && isInCart == old(isInCart) && showPopup == old(showPopup)
      ensures productDetails == old(productDetails) && selectedSize == old(selectedSize) && quantity == old(quantity)
    {
      selectedColor := color;
    }

    /**
     * `handleAddToCart`; ok is whether the server accepted the request. A sent
     * request carries the card's product, quantity, size and colour, and an
     * accepted one marks the product as in the cart and closes the popup.
     */
    method HandleAddToCart(hasToken: bool, ok: bool) returns (outcome: AddOutcome)
      modifies this
      ensures outcome == AddToCartDecision(productId, quantity, selectedSize, selectedColor, hasToken)
      ensures outcome.Request? && ok ==> isInCart && !showPopup
      ensures !(outcome.Request? && ok) ==> isInCart == old(isInCart) && showPopup == old(showPopup)
      ensures outcome.Request? && productId != "" && old(Valid()) ==> UserModel.HasRequiredFields(outcome.req)
      ensures isWishlisted == old(isWishlisted) && productDetails == old(productDetails)
      ensures selectedSize == old(selectedSize) && selectedColor == old(selectedColor) && quantity == old(quantity)
    {
      if selectedSize == "" || selectedColor == "" {
        return NeedsSizeAndColor;
      }
      if !hasToken {
        return AddNeedsLogin;
      }
      outcome := Request(UserModel.CartRequest(productId, quantity, selectedSize, selectedColor));
      if ok {
        isInCart := true;
        showPopup := false;
      }
    }
  }
}
