/** The cart page: the derived order total and the checkout button's
    handler, which reduces the cart to `{product_id, quantity}` lines, calls
    the provider's checkout and reports the outcome in the page's two message
    fields. */
module CartPage {
  import opened Common
  import opened CartContext

  const EmptyCartMessage := "O carrinho está vazio. Adicione produtos antes de finalizar."
  const ProcessingMessage := "Processando compra..."
  const SuccessMessage := "\U{1F389} Compra finalizada com sucesso!"
  const FailureMessage := "Falha ao finalizar a compra. Verifique o console."

  /** `cartItems.reduce((total, item) => total + item.price * item.quantity, 0)`. */
  function CartTotal(items: seq<CartItem>): int {
    if items == [] then 0
    else CartTotal(items[..|items| - 1]) + items[|items| - 1].price * items[|items| - 1].quantity
  }

  /** The total is additive over concatenation, so it is the sum of
      `price * quantity` whichever way the lines are grouped. */
  lemma {:induction false} CartTotalAppend(a: seq<CartItem>, b: seq<CartItem>)
    ensures CartTotal(a + b) == CartTotal(a) + CartTotal(b)
    decreases |b|
  {
    if b == [] {
      assert a + b == a;
    } else {
      assert (a + b)[..|a + b| - 1] == a + b[..|b| - 1];
      assert (a + b)[|a + b| - 1] == b[|b| - 1];
      CartTotalAppend(a, b[..|b| - 1]);
    }
  }

  /** An empty cart totals 0, and the two-line example of 10.00 x 2 and
      5.50 x 1 totals 25.50 (in cents). */
  lemma CartTotalExamples()
    ensures CartTotal([]) == 0
    ensures CartTotal([CartItem("a", 2, "A", 1000, ""), CartItem("b", 1, "B", 550, "")]) == 2550
  {
    var s := [CartItem("a", 2, "A", 1000, ""), CartItem("b", 1, "B", 550, "")];
    assert s[..1] == [s[0]];
    assert s[..1][..0] == [];
  }

  /** Replacing one line changes the total by that line's difference. */
  lemma CartTotalUpdate(items: seq<CartItem>, k: int, line: CartItem)
    requires 0 <= k < |items|
    ensures CartTotal(items[k := line]) ==
            CartTotal(items) - items[k].price * items[k].quantity + line.price * line.quantity
  {
    var pre, post := items[..k], items[k + 1..];
    assert items == pre + [items[k]] + post;
    assert items[k := line] == pre + [line] + post;
    CartTotalAppend(pre + [items[k]], post);
    CartTotalAppend(pre + [line], post);
    CartTotalAppend(pre, [items[k]]);
    CartTotalAppend(pre, [line]);
    assert CartTotal([line]) == line.price * line.quantity by {
      assert [line][..0] == [];
    }
    assert CartTotal([items[k]]) == items[k].price * items[k].quantity by {
      assert [items[k]][..0] == [];
    }
  }

  /** A successful add raises the total by the amount times the price of the
      line that receives it: the catalog price for a new line, the price
      already cached on the line for a product already in the cart. */
  lemma {:induction false} CartTotalAfterAdd(items: seq<CartItem>, product: Product, quantity: int)
    ensures !HasId(items, product.id) ==>
              CartTotal(Merge(items, product, quantity)) == CartTotal(items) + product.price * quantity
    ensures HasId(items, product.id) ==>
              var k := FindIndex(items, product.id);
              CartTotal(Merge(items, product, quantity)) == CartTotal(items) + items[k].price * quantity
  {
    MergeByIndex(items, product, quantity);
    var k := FindIndex(items, product.id);
    if k > -1 {
      var line := items[k].(quantity := items[k].quantity + quantity);
      CartTotalUpdate(items, k, line);
      assert items[k].price * (items[k].quantity + quantity) == items[k].price * items[k].quantity + items[k].price * quantity;
    } else {
      var line := NewLine(product, quantity);
      CartTotalAppend(items, [line]);
      assert [line][..0] == [];
    }
  }

  /** `cartItems.map(item => ({product_id, quantity}))`: one checkout line per
      cart line, in the same order, without the price. */
  function ItemsToSell(items: seq<CartItem>): (r: seq<SaleItem>)
    ensures |r| == |items|
    ensures forall i :: 0 <= i < |items| ==> r[i] == SaleItem(items[i].productId, items[i].quantity)
  {
    if items == [] then [] else [SaleItem(items[0].productId, items[0].quantity)] + ItemsToSell(items[1..])
  }

  class CartPageState {
    var manualMessage: string
    var authActionMessage: string

    constructor ()
      ensures manualMessage == "" && authActionMessage == ""
    {
      manualMessage := "";
      authActionMessage := "";
    }

    /** `handleCheckout`: an empty cart only sets the "empty" message and
        never calls checkout; otherwise the lines go to checkout, a returned
        order reports success and reloads the cart, a `null` reports failure,
        and a thrown error lands in `authActionMessage` as "Erro crítico". */
    method HandleCheckout(cart: CartProvider, userId: string, hasToken: bool, reply: Reply<Fields>,
                          checkoutRefetch: Reply<CartData>, pageRefetch: Reply<CartData>,
                          catalog: ProductId -> Reply<Details>)
      returns (sent: Option<seq<SaleItem>>)
      modifies this, cart
      ensures old(cart.cartItems) == [] ==>
                sent == None && manualMessage == EmptyCartMessage &&
                authActionMessage == old(authActionMessage) && cart.cartItems == old(cart.cartItems) &&
                cart.loadingCart == old(cart.loadingCart) && cart.cartError == old(cart.cartError)
      ensures old(cart.cartItems) != [] ==>
                sent == Some(ItemsToSell(old(cart.cartItems)))
      ensures old(cart.cartItems) != [] ==>
                var outcome := CheckoutOutcome(hasToken, userId, ItemsToSell(old(cart.cartItems)), reply);
                (outcome.Order? ==> manualMessage == SuccessMessage && authActionMessage == old(authActionMessage)) &&
                (outcome.NoOrder? ==> manualMessage == FailureMessage && authActionMessage == old(authActionMessage)) &&
                (outcome.Thrown? ==> manualMessage == ProcessingMessage &&
                                     authActionMessage == "Erro crítico: " + outcome.message) &&
                (!outcome.Order? ==>
                   cart.cartItems == old(cart.cartItems) && cart.cartError == old(cart.cartError) &&
                   cart.loadingCart == old(cart.loadingCart)) &&
                (outcome.Order? ==> !cart.loadingCart) &&
                (outcome.Order? && LoadedCart(pageRefetch, catalog).Some? ==>
                   cart.cartItems == LoadedCart(pageRefetch, catalog).value && cart.cartError == None) &&
                (outcome.Order? && LoadedCart(pageRefetch, catalog).None? ==>
                   cart.cartError == Some(CartLoadError) &&
                   cart.cartItems == (if LoadedCart(checkoutRefetch, catalog).Some?
                                      then LoadedCart(checkoutRefetch, catalog).value
                                      else old(cart.cartItems)))
    {
      if |cart.cartItems| == 0 {
        manualMessage := EmptyCartMessage;
        return None;
      }
      manualMessage := ProcessingMessage;
      var itemsToSell := ItemsToSell(cart.cartItems);
      sent := Some(itemsToSell);
      var result, _ := cart.Checkout(userId, itemsToSell, hasToken, reply, checkoutRefetch, catalog);
      match result {
        case Order(_) =>
          manualMessage := SuccessMessage;
          cart.FetchCart(true, pageRefetch, catalog);
        case NoOrder =>
          manualMessage := FailureMessage;
        case Thrown(message) =>
          authActionMessage := "Erro crítico: " + message;
      }
    }
  }
}
