/** The cart provider: the in-memory cart (`cartItems`, `loadingCart`,
    `cartError`) kept in step with the server's `/api/cart` resource, and the
    handlers that change it. Each server reply is an input of the handler that
    awaits it; a missing access token is the `hasToken == false` input. */
module CartContext {
  import opened Common
  import opened JsBuiltins

  /** A product's display fields, as the catalog lookup resolves them. */
  datatype Details = Details(name: string, price: int, image: string)

  /** A cart line as the server stores it: `{product_id, quantity}`. */
  datatype RawItem = RawItem(productId: ProductId, quantity: int)

  /** The body of `GET /api/cart`; `items` may be absent. */
  datatype CartData = CartData(items: Option<seq<RawItem>>)

  /** A cart line with the display fields copied from the catalog. */
  datatype CartItem = CartItem(productId: ProductId, quantity: int, name: string, price: int, image: string)

  /** A checkout line, `{product_id, quantity}`: the price is never sent. */
  datatype SaleItem = SaleItem(productId: ProductId, quantity: int)

  /** What `checkout` hands back to its caller: `null`, the server's payload,
      or a thrown error with its message. */
  datatype CheckoutResult = NoOrder | Order(data: Fields) | Thrown(message: string)

  const UnknownProduct := Details("Produto Desconhecido", 0, "")
  const UnavailableProduct := Details("Produto Indisponível", 0, "")
  const NetworkErrorProduct := Details("Erro de Rede", 0, "")

  const NotAuthenticatedAlert := "Erro: Usuário não autenticado. Faça login novamente."
  const CartLoadError := "Não foi possível carregar seu carrinho."
  const CheckoutAuthAlert := "Erro de autenticação para checkout."
  const EmptyCartAlert := "Carrinho vazio."

  predicate IsSentinel(d: Details) {
    d == UnknownProduct || d == UnavailableProduct || d == NetworkErrorProduct
  }

  /** `fetchProductDetails`: the catalog record for one cart line. `None` is
      the one way the lookup rejects: an ok reply whose body is not JSON
      (the parse is returned, not awaited, inside the `try`). */
  function FetchProductDetails(hasToken: bool, reply: Reply<Details>): (r: Option<Details>)
    ensures r.None? <==> hasToken && reply.Ok() && reply.body.Unparsable?
    ensures hasToken && reply.Ok() && reply.body.Parsed? ==> r == Some(reply.body.value)
    ensures r.Some? && !(hasToken && reply.Ok()) ==> IsSentinel(r.value) && r.value.price == 0
    ensures !hasToken ==> r == Some(UnknownProduct)
    ensures hasToken && reply.Response? && !IsOk(reply.status) ==> r == Some(UnavailableProduct)
    ensures hasToken && reply.NetworkFailure? ==> r == Some(NetworkErrorProduct)
  {
    if !hasToken then Some(UnknownProduct)
    else match reply
      case NetworkFailure(_) => Some(NetworkErrorProduct)
      case Response(status, _, body) =>
        if !IsOk(status) then Some(UnavailableProduct)
        else match body
          case Parsed(d) => Some(d)
          case Unparsable(_) => None
  }

  /** `{...item, name, price, image}`. */
  function Enrich(raw: RawItem, d: Details): CartItem {
    CartItem(raw.productId, raw.quantity, d.name, d.price, d.image)
  }

  /** The fan-out of lookups, taken one line after the other: the enriched
      lines, or `None` when any lookup rejects (`Promise.all` rejects). */
  function EnrichAll(raw: seq<RawItem>, catalog: ProductId -> Reply<Details>): Option<seq<CartItem>> {
    if raw == [] then Some([])
    else
      match FetchProductDetails(true, catalog(raw[0].productId))
      case None => None
      case Some(d) =>
        match EnrichAll(raw[1..], catalog)
        case None => None
        case Some(rest) => Some([Enrich(raw[0], d)] + rest)
  }

  /** `cartData.items || []`. */
  function RawItemsOf(data: CartData): seq<RawItem> {
    if data.items.Some? then data.items.value else []
  }

  /** The cart a `fetchCart` with a token installs, or `None` when it fails
      (network failure, non-ok status, unreadable body, rejected lookup). */
  function LoadedCart(reply: Reply<CartData>, catalog: ProductId -> Reply<Details>): Option<seq<CartItem>> {
    if reply.Ok() && reply.body.Parsed? then EnrichAll(RawItemsOf(reply.body.value), catalog) else None
  }

  /** Enrichment keeps the server's lines, in order, with their ids and
      quantities; each line gets the display fields of its own lookup; and
      it fails exactly when some lookup rejects. */
  lemma {:induction false} EnrichAllShape(raw: seq<RawItem>, catalog: ProductId -> Reply<Details>)
    ensures EnrichAll(raw, catalog).None? <==>
            exists i :: 0 <= i < |raw| && FetchProductDetails(true, catalog(raw[i].productId)).None?
    ensures EnrichAll(raw, catalog).Some? ==>
            var items := EnrichAll(raw, catalog).value;
            |items| == |raw| &&
            forall i :: 0 <= i < |raw| ==>
              items[i].productId == raw[i].productId && items[i].quantity == raw[i].quantity &&
              FetchProductDetails(true, catalog(raw[i].productId)) ==
                Some(Details(items[i].name, items[i].price, items[i].image))
  {
    if raw != [] {
      EnrichAllShape(raw[1..], catalog);
      if FetchProductDetails(true, catalog(raw[0].productId)).Some? && EnrichAll(raw[1..], catalog).Some? {
        var items := EnrichAll(raw, catalog).value;
        forall i | 0 <= i < |raw|
          ensures items[i].productId == raw[i].productId && items[i].quantity == raw[i].quantity
          ensures FetchProductDetails(true, catalog(raw[i].productId)) ==
                  Some(Details(items[i].name, items[i].price, items[i].image))
        {
          if i > 0 {
            assert raw[i] == raw[1..][i - 1];
          }
        }
      } else if FetchProductDetails(true, catalog(raw[0].productId)).Some? {
        var i :| 0 <= i < |raw[1..]| && FetchProductDetails(true, catalog(raw[1..][i].productId)).None?;
        assert raw[1..][i] == raw[i + 1];
      }
      if EnrichAll(raw, catalog).Some? {
        forall i | 0 <= i < |raw| ensures FetchProductDetails(true, catalog(raw[i].productId)).Some? {
          if i > 0 {
            assert raw[i] == raw[1..][i - 1];
          }
        }
      }
    }
  }

  /** The scenario of one line `p1` x 2 whose catalog lookup answers 500:
      the cart still loads, with the line priced 0 and named as unavailable. */
  lemma UnavailableLineScenario(catalog: ProductId -> Reply<Details>)
    requires catalog("p1") == Response(500, "Internal Server Error", Unparsable("not JSON"))
    ensures LoadedCart(Response(200, "OK", Parsed(CartData(Some([RawItem("p1", 2)])))), catalog)
            == Some([CartItem("p1", 2, "Produto Indisponível", 0, "")])
  {
    var raw := [RawItem("p1", 2)];
    assert FetchProductDetails(true, catalog(raw[0].productId)) == Some(UnavailableProduct);
    assert EnrichAll(raw[1..], catalog) == Some([]);
    var line := Enrich(raw[0], UnavailableProduct);
    assert [line] + [] == [line];
    assert EnrichAll(raw, catalog) == Some([line]);
    var reply := Response(200, "OK", Parsed(CartData(Some(raw))));
    assert reply.Ok();
    assert RawItemsOf(reply.body.value) == raw;
  }

  /** `prevItems.map(item => item.product_id === productId ? {...item, quantity} : item)`. */
  function SetQuantity(items: seq<CartItem>, productId: ProductId, quantity: int): seq<CartItem> {
    if items == [] then []
    else
      var head := if items[0].productId == productId then items[0].(quantity := quantity) else items[0];
      [head] + SetQuantity(items[1..], productId, quantity)
  }

  /** The quantity update touches only the lines of `productId`, and on
      those only the quantity: length, order and every other line stay. */
  lemma {:induction false} SetQuantityEffect(items: seq<CartItem>, productId: ProductId, quantity: int)
    ensures |SetQuantity(items, productId, quantity)| == |items|
    ensures forall i :: 0 <= i < |items| ==>
              SetQuantity(items, productId, quantity)[i] ==
                (if items[i].productId == productId then items[i].(quantity := quantity) else items[i])
  {
    if items != [] {
      SetQuantityEffect(items[1..], productId, quantity);
      var r := SetQuantity(items, productId, quantity);
      forall i | 0 <= i < |items|
        ensures r[i] == (if items[i].productId == productId then items[i].(quantity := quantity) else items[i])
      {
        if i > 0 {
          assert r[i] == SetQuantity(items[1..], productId, quantity)[i - 1];
          assert items[i] == items[1..][i - 1];
        }
      }
    }
  }

  /** The ids of a cart, in order. */
  function Ids(items: seq<CartItem>): (r: seq<ProductId>)
    ensures |r| == |items| && forall i :: 0 <= i < |items| ==> r[i] == items[i].productId
  {
    if items == [] then [] else [items[0].productId] + Ids(items[1..])
  }

  /** No two lines share a product id. */
  predicate UniqueIds(items: seq<CartItem>) {
    forall i, j :: 0 <= i < j < |items| ==> items[i].productId != items[j].productId
  }

  predicate HasId(items: seq<CartItem>, productId: ProductId) {
    exists i :: 0 <= i < |items| && items[i].productId == productId
  }

  /** `findIndex(item => item.product_id === productId)`: the first line with
      that id, or -1. */
  function FindIndex(items: seq<CartItem>, productId: ProductId): (r: int)
    ensures -1 <= r < |items|
    ensures r == -1 <==> !HasId(items, productId)
    ensures r >= 0 ==> items[r].productId == productId &&
                       forall j :: 0 <= j < r ==> items[j].productId != productId
  {
    if items == [] then -1
    else if items[0].productId == productId then 0
    else
      var k := FindIndex(items[1..], productId);
      assert forall j :: 1 <= j < |items| ==> items[j] == items[1..][j - 1];
      if k == -1 then -1 else k + 1
  }

  /** The line `addToCart` appends for a product not yet in the cart. */
  function NewLine(product: Product, quantity: int): CartItem {
    CartItem(product.id, quantity, product.name, product.price, product.image)
  }

  /** Reference definition of the local update after a successful add: the
      first line of the product absorbs the amount, else a new line goes at
      the end. */
  function Merge(items: seq<CartItem>, product: Product, quantity: int): seq<CartItem> {
    if items == [] then [NewLine(product, quantity)]
    else if items[0].productId == product.id then
      [items[0].(quantity := items[0].quantity + quantity)] + items[1..]
    else [items[0]] + Merge(items[1..], product, quantity)
  }

  /** The index-based update the handler performs is the reference merge. */
  lemma {:induction false} MergeByIndex(items: seq<CartItem>, product: Product, quantity: int)
    ensures var k := FindIndex(items, product.id);
            Merge(items, product, quantity) ==
              if k > -1 then items[k := items[k].(quantity := items[k].quantity + quantity)]
              else items + [NewLine(product, quantity)]
  {
    if items != [] && items[0].productId != product.id {
      MergeByIndex(items[1..], product, quantity);
      var k := FindIndex(items[1..], product.id);
      if k > -1 {
        assert [items[0]] + items[1..][k := items[1..][k].(quantity := items[1..][k].quantity + quantity)]
            == items[k + 1 := items[k + 1].(quantity := items[k + 1].quantity + quantity)];
      } else {
        assert [items[0]] + (items[1..] + [NewLine(product, quantity)]) == items + [NewLine(product, quantity)];
      }
    }
  }

  /** A successful add keeps the length when the product is already in the
      cart (only that line's quantity grows) and otherwise appends one line
      at the end. */
  lemma {:induction false} MergeShape(items: seq<CartItem>, product: Product, quantity: int)
    ensures HasId(items, product.id) ==>
              var k := FindIndex(items, product.id);
              |Merge(items, product, quantity)| == |items| &&
              Merge(items, product, quantity)[k] == items[k].(quantity := items[k].quantity + quantity) &&
              forall j :: 0 <= j < |items| && j != k ==> Merge(items, product, quantity)[j] == items[j]
    ensures !HasId(items, product.id) ==> Merge(items, product, quantity) == items + [NewLine(product, quantity)]
  {
    MergeByIndex(items, product, quantity);
  }

  /** The sum of the quantities on the lines of `productId`. */
  function QuantityOf(items: seq<CartItem>, productId: ProductId): int {
    if items == [] then 0
    else (if items[0].productId == productId then items[0].quantity else 0) + QuantityOf(items[1..], productId)
  }

  /** Adding `quantity` of a product raises that product's quantity by
      exactly `quantity` and leaves every other product's quantity alone. */
  lemma {:induction false} MergeQuantity(items: seq<CartItem>, product: Product, quantity: int, id: ProductId)
    ensures QuantityOf(Merge(items, product, quantity), id) ==
            QuantityOf(items, id) + (if id == product.id then quantity else 0)
  {
    if items != [] && items[0].productId != product.id {
      MergeQuantity(items[1..], product, quantity, id);
    }
  }

  /** Adding never duplicates an id: a cart with unique ids stays so. */
  lemma {:induction false} MergeKeepsUniqueIds(items: seq<CartItem>, product: Product, quantity: int)
    requires UniqueIds(items)
    ensures UniqueIds(Merge(items, product, quantity))
    ensures forall id :: HasId(Merge(items, product, quantity), id) <==> HasId(items, id) || id == product.id
  {
    MergeShape(items, product, quantity);
    var m := Merge(items, product, quantity);
    if !HasId(items, product.id) {
      assert m[|items|] == NewLine(product, quantity);
      forall i, j | 0 <= i < j < |m| ensures m[i].productId != m[j].productId {
        assert m[i] == items[i];
        if j < |items| {
          assert m[j] == items[j];
        }
      }
      forall id | HasId(m, id) ensures HasId(items, id) || id == product.id {
        var i :| 0 <= i < |m| && m[i].productId == id;
        if i < |items| { assert items[i] == m[i]; }
      }
      forall id | HasId(items, id) || id == product.id ensures HasId(m, id) {
        if HasId(items, id) {
          var i :| 0 <= i < |items| && items[i].productId == id;
          assert m[i] == items[i];
        } else {
          assert m[|items|].productId == id;
        }
      }
    } else {
      var k := FindIndex(items, product.id);
      assert forall j :: 0 <= j < |items| ==> m[j].productId == items[j].productId;
    }
  }

  /** One call of `addToCart(product, quantity)` that the server accepts. */
  datatype Add = Add(product: Product, quantity: int)

  /** The cart after a series of accepted adds, oldest first. */
  function AddAll(items: seq<CartItem>, adds: seq<Add>): seq<CartItem>
    decreases |adds|
  {
    if adds == [] then items
    else AddAll(Merge(items, adds[0].product, adds[0].quantity), adds[1..])
  }

  /** The amount the adds request for `productId`. */
  function Requested(adds: seq<Add>, productId: ProductId): int {
    if adds == [] then 0
    else (if adds[0].product.id == productId then adds[0].quantity else 0) + Requested(adds[1..], productId)
  }

  /** From a cart with unique ids, any series of accepted adds keeps the ids
      unique, and each product's quantity is what it had plus the sum of the
      amounts requested for it. */
  lemma {:induction false} AddAllMergesByKey(items: seq<CartItem>, adds: seq<Add>, id: ProductId)
    requires UniqueIds(items)
    ensures UniqueIds(AddAll(items, adds))
    ensures QuantityOf(AddAll(items, adds), id) == QuantityOf(items, id) + Requested(adds, id)
    ensures HasId(AddAll(items, adds), id) <==>
            HasId(items, id) || exists j :: 0 <= j < |adds| && adds[j].product.id == id
    decreases |adds|
  {
    if adds != [] {
      var next := Merge(items, adds[0].product, adds[0].quantity);
      MergeKeepsUniqueIds(items, adds[0].product, adds[0].quantity);
      MergeQuantity(items, adds[0].product, adds[0].quantity, id);
      AddAllMergesByKey(next, adds[1..], id);
      if exists j :: 0 <= j < |adds[1..]| && adds[1..][j].product.id == id {
        var j :| 0 <= j < |adds[1..]| && adds[1..][j].product.id == id;
        assert adds[j + 1].product.id == id;
      }
      if exists j :: 0 <= j < |adds| && adds[j].product.id == id {
        var j :| 0 <= j < |adds| && adds[j].product.id == id;
        if j > 0 { assert adds[1..][j - 1].product.id == id; }
      }
    }
  }

  /** In a cart with unique ids a present product has exactly one line, and
      its quantity is that line's quantity. */
  lemma {:induction false} QuantityOfUniqueLine(items: seq<CartItem>, k: int)
    requires UniqueIds(items) && 0 <= k < |items|
    ensures QuantityOf(items, items[k].productId) == items[k].quantity
  {
    if k == 0 {
      QuantityOfAbsent(items[1..], items[0].productId);
    } else {
      assert items[k] == items[1..][k - 1];
      QuantityOfUniqueLine(items[1..], k - 1);
    }
  }

  lemma {:induction false} QuantityOfAbsent(items: seq<CartItem>, id: ProductId)
    requires !HasId(items, id)
    ensures QuantityOf(items, id) == 0
  {
    if items != [] {
      assert !HasId(items[1..], id) by {
        forall i | 0 <= i < |items[1..]| ensures items[1..][i].productId != id {
          assert items[1..][i] == items[i + 1];
        }
      }
      QuantityOfAbsent(items[1..], id);
    }
  }

  /** Repeated adds of one product to a cart that lacks it leave exactly one
      line for it, holding the sum of the requested amounts. */
  lemma SameProductAdds(items: seq<CartItem>, adds: seq<Add>, id: ProductId)
    requires UniqueIds(items) && !HasId(items, id)
    requires adds != [] && forall j :: 0 <= j < |adds| ==> adds[j].product.id == id
    ensures var r := AddAll(items, adds);
            exists k :: 0 <= k < |r| && r[k].productId == id && r[k].quantity == Requested(adds, id) &&
              forall j :: 0 <= j < |r| && r[j].productId == id ==> j == k
  {
    var r := AddAll(items, adds);
    AddAllMergesByKey(items, adds, id);
    QuantityOfAbsent(items, id);
    assert adds[0].product.id == id;
    var k :| 0 <= k < |r| && r[k].productId == id;
    QuantityOfUniqueLine(r, k);
  }

  /** The alert text of a rejected update: the server's `message`, its
      fallback, or the error that ended the request. */
  function UpdateFailureAlert(reply: Reply<Fields>): string {
    "Erro ao atualizar quantidade: " +
    match reply
    case NetworkFailure(reason) => reason
    case Response(_, _, body) =>
      match body
      case Parsed(data) => OrElse(data.message, "Falha ao atualizar a quantidade.")
      case Unparsable(reason) => reason
  }

  /** The alert text of a rejected add. */
  function AddFailureAlert(reply: Reply<Fields>): string {
    "Erro ao adicionar ao carrinho: " +
    match reply
    case NetworkFailure(reason) => reason
    case Response(_, _, body) =>
      match body
      case Parsed(data) => OrElse(data.message, "Falha ao adicionar o produto no servidor.")
      case Unparsable(reason) => reason
  }

  /** The text of a checkout the server refuses. */
  function CheckoutFailure(reply: Reply<Fields>): string
    requires reply.Response? && reply.body.Parsed?
  {
    OrElse(reply.body.value.error, "Falha no checkout (Status: " + NatToString(reply.status) + ").")
  }

  /** What `checkout(customerId, items)` resolves or throws, given the reply
      to `POST /api/sales`. */
  function CheckoutOutcome(hasToken: bool, customerId: string, items: seq<SaleItem>, reply: Reply<Fields>): CheckoutResult {
    if !hasToken || customerId == "" || items == [] then NoOrder
    else match reply
      case NetworkFailure(reason) => Thrown(reason)
      case Response(status, _, body) =>
        match body
        case Unparsable(reason) => Thrown(reason)
        case Parsed(data) => if IsOk(status) then Order(data) else Thrown(CheckoutFailure(reply))
  }

  /** Checkout resolves to `null` exactly on the local guards (no token, no
      customer id, no items); otherwise it returns the payload of an ok reply
      or throws, a refused order naming the server's `error` or the status. */
  lemma CheckoutGuards(hasToken: bool, customerId: string, items: seq<SaleItem>, reply: Reply<Fields>)
    ensures CheckoutOutcome(hasToken, customerId, items, reply).NoOrder? <==>
            !hasToken || customerId == "" || items == []
    ensures CheckoutOutcome(hasToken, customerId, items, reply).Order? <==>
            hasToken && customerId != "" && items != [] && reply.Ok() && reply.body.Parsed?
    ensures hasToken && customerId != "" && items != [] && reply.Response? && !reply.Ok() &&
            reply.body.Parsed? && OrElse(reply.body.value.error, "") == "" ==>
            CheckoutOutcome(hasToken, customerId, items, reply) ==
              Thrown("Falha no checkout (Status: " + NatToString(reply.status) + ").")
  {
  }

  class CartProvider {
    var cartItems: seq<CartItem>
    var loadingCart: bool
    var cartError: Option<string>

    constructor ()
      ensures cartItems == [] && loadingCart && cartError == None
    {
      cartItems := [];
      loadingCart := true;
      cartError := None;
    }

    /** `fetchCart`: without a token only the loading flag drops; otherwise a
        successful load replaces the whole cart, and a failure records
        `cartError` and keeps the lines already shown. */
    method FetchCart(hasToken: bool, reply: Reply<CartData>, catalog: ProductId -> Reply<Details>)
      modifies this
      ensures !loadingCart
      ensures !hasToken ==> cartItems == old(cartItems) && cartError == old(cartError)
      ensures hasToken && LoadedCart(reply, catalog).Some? ==>
                cartItems == LoadedCart(reply, catalog).value && cartError == None
      ensures hasToken && LoadedCart(reply, catalog).None? ==>
                cartItems == old(cartItems) && cartError == Some(CartLoadError)
    {
      if !hasToken {
        loadingCart := false;
        return;
      }
      loadingCart := true;
      cartError := None;
      if reply.Ok() && reply.body.Parsed? {
        var raw := RawItemsOf(reply.body.value);
        var detailed := EnrichAll(raw, catalog);
        if detailed.Some? {
          cartItems := detailed.value;
        } else {
          cartError := Some(CartLoadError);
        }
      } else {
        cartError := Some(CartLoadError);
      }
      loadingCart := false;
    }

    /** `updateQuantity(productId, newQuantity)`: a value that does not parse
        to an integer of at least 1 is ignored without a request; without a
        token only an alert is raised; after the request, only an ok reply
        changes the cart, setting the quantity of the matching lines. */
    method UpdateQuantity(productId: ProductId, newQuantity: string, hasToken: bool, reply: Reply<Fields>)
      returns (requested: bool, alert: Option<string>)
      modifies this
      ensures requested <==> ParseInt(newQuantity).Some? && ParseInt(newQuantity).value >= 1 && hasToken
      ensures requested && reply.Ok() ==>
                cartItems == SetQuantity(old(cartItems), productId, ParseInt(newQuantity).value) && alert == None
      ensures !(requested && reply.Ok()) ==> cartItems == old(cartItems)
      ensures requested && !reply.Ok() ==> alert == Some(UpdateFailureAlert(reply))
      ensures !requested ==>
                alert == (if ParseInt(newQuantity).Some? && ParseInt(newQuantity).value >= 1
                          then Some(NotAuthenticatedAlert) else None)
      ensures loadingCart == old(loadingCart) && cartError == old(cartError)
    {
      var quantity := ParseInt(newQuantity);
      requested, alert := false, None;
      if quantity.None? || quantity.value < 1 {
        return;
      }
      if !hasToken {
        alert := Some(NotAuthenticatedAlert);
        return;
      }
      requested := true;
      if !reply.Ok() {
        alert := Some(UpdateFailureAlert(reply));
        return;
      }
      cartItems := SetQuantity(cartItems, productId, quantity.value);
    }

    /** `addToCart(product, quantity)`: without a token only an alert; the
        body is read before the status, so an unreadable body fails even an
        ok reply; on success the first line of the product absorbs the amount
        in place, else a new line is appended. */
    method AddToCart(product: Product, quantity: int, hasToken: bool, reply: Reply<Fields>)
      returns (alert: Option<string>)
      modifies this
      ensures hasToken && reply.Ok() && reply.body.Parsed? ==>
                cartItems == Merge(old(cartItems), product, quantity) && alert == None
      ensures !(hasToken && reply.Ok() && reply.body.Parsed?) ==> cartItems == old(cartItems)
      ensures !hasToken ==> alert == Some(NotAuthenticatedAlert)
      ensures hasToken && !(reply.Ok() && reply.body.Parsed?) ==> alert == Some(AddFailureAlert(reply))
      ensures loadingCart == old(loadingCart) && cartError == old(cartError)
    {
      if !hasToken {
        alert := Some(NotAuthenticatedAlert);
        return;
      }
      if !(reply.Ok() && reply.body.Parsed?) {
        alert := Some(AddFailureAlert(reply));
        return;
      }
      alert := None;
      var items := cartItems;
      var existingItemIndex := FindIndex(items, product.id);
      MergeByIndex(items, product, quantity);
      if existingItemIndex > -1 {
        var line := items[existingItemIndex];
        cartItems := items[existingItemIndex := line.(quantity := line.quantity + quantity)];
      } else {
        cartItems := items + [NewLine(product, quantity)];
      }
    }

    /** `removeFromCart(productId)`: an empty id or a missing token makes no
        request; a 204 or a 404 reloads the cart from the server; any other
        outcome is only logged and leaves the state as it was. */
    method RemoveFromCart(productId: ProductId, hasToken: bool, reply: Reply<Fields>,
                          refetch: Reply<CartData>, catalog: ProductId -> Reply<Details>)
      returns (requested: bool, refetched: bool)
      modifies this
      ensures requested <==> productId != "" && hasToken
      ensures refetched <==> requested && (reply.HasStatus(204) || reply.HasStatus(404))
      ensures !refetched ==>
                cartItems == old(cartItems) && loadingCart == old(loadingCart) && cartError == old(cartError)
      ensures refetched && LoadedCart(refetch, catalog).Some? ==>
                cartItems == LoadedCart(refetch, catalog).value && cartError == None && !loadingCart
      ensures refetched && LoadedCart(refetch, catalog).None? ==>
                cartItems == old(cartItems) && cartError == Some(CartLoadError) && !loadingCart
    {
      requested, refetched := false, false;
      if productId == "" {
        return;
      }
      if !hasToken {
        return;
      }
      requested := true;
      if reply.HasStatus(204) {
        refetched := true;
        FetchCart(true, refetch, catalog);
      } else if reply.HasStatus(404) {
        refetched := true;
        FetchCart(true, refetch, catalog);
      }
    }

    /** `checkout(customerId, items)`: the guards answer `null` with an alert
        and make no request; an ok reply reloads the cart and hands back the
        payload; anything else is thrown to the caller with the cart as it
        was. */
    method Checkout(customerId: string, items: seq<SaleItem>, hasToken: bool, reply: Reply<Fields>,
                    refetch: Reply<CartData>, catalog: ProductId -> Reply<Details>)
      returns (result: CheckoutResult, alert: Option<string>)
      modifies this
      ensures result == CheckoutOutcome(hasToken, customerId, items, reply)
      ensures alert == (if !hasToken || customerId == "" then Some(CheckoutAuthAlert)
                        else if items == [] then Some(EmptyCartAlert) else None)
      ensures !result.Order? ==>
                cartItems == old(cartItems) && loadingCart == old(loadingCart) && cartError == old(cartError)
      ensures result.Order? && LoadedCart(refetch, catalog).Some? ==>
                cartItems == LoadedCart(refetch, catalog).value && cartError == None && !loadingCart
      ensures result.Order? && LoadedCart(refetch, catalog).None? ==>
                cartItems == old(cartItems) && cartError == Some(CartLoadError) && !loadingCart
    {
      alert := None;
      if !hasToken || customerId == "" {
        alert := Some(CheckoutAuthAlert);
        return NoOrder, alert;
      }
      if |items| == 0 {
        alert := Some(EmptyCartAlert);
        return NoOrder, alert;
      }
      match reply {
        case NetworkFailure(reason) =>
          result := Thrown(reason);
        case Response(status, _, body) =>
          match body {
            case Unparsable(reason) =>
              result := Thrown(reason);
            case Parsed(data) =>
              if !IsOk(status) {
                result := Thrown(CheckoutFailure(reply));
              } else {
                FetchCart(true, refetch, catalog);
                result := Order(data);
              }
          }
      }
    }
  }
}
