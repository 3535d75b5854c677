/** The purchase history page: the credential check on mount and
    `fetchPurchaseHistory`, which maps the server's sale records to orders,
    filling every falsy field with its default. */
module PurchaseHistory {
  import opened Common

  /** `sale_item.product`: only its `name` is read. */
  datatype ProductRecord = ProductRecord(name: Option<string>)

  /** One element of `sale.sale_items`, as the server sends it. */
  datatype SaleItemRecord = SaleItemRecord(product: Option<ProductRecord>, unitPriceAtSale: Option<int>,
                                           quantity: Option<int>)

  /** One element of `GET /api/sales`, as the server sends it. */
  datatype SaleRecord = SaleRecord(id: Option<string>, totalAmount: Option<int>, saleDate: Option<string>,
                                   status: Option<string>, saleItems: Option<seq<SaleItemRecord>>)

  /** An order line as the page shows it. */
  datatype OrderItem = OrderItem(name: string, price: int, quantity: int)

  /** An order as the page shows it. */
  datatype Order = Order(id: string, total: int, date: string, status: string, items: seq<OrderItem>)

  const UnknownProductName := "Produto Desconhecido"
  const NotAuthenticatedError := "Usuário não autenticado. Por favor, faça login."

  /** The item mapper reads `item.product.name`, so it needs a `product`. */
  predicate WellFormedItem(item: SaleItemRecord) {
    item.product.Some?
  }

  /** The sale mapper calls `sale.sale_items.map`, so it needs the list, and
      every item in it must be well formed. */
  predicate WellFormedSale(sale: SaleRecord) {
    sale.saleItems.Some? && forall k :: 0 <= k < |sale.saleItems.value| ==> WellFormedItem(sale.saleItems.value[k])
  }

  /** `{name: item.product.name || 'Produto Desconhecido', price:
      item.unit_price_at_sale || 0, quantity: item.quantity || 0}`. */
  function MapItem(item: SaleItemRecord): (r: OrderItem)
    requires WellFormedItem(item)
    ensures r.name != ""
    ensures item.product.value.name.Some? && item.product.value.name.value != "" ==>
              r.name == item.product.value.name.value
    ensures item.product.value.name.None? || item.product.value.name.value == "" ==> r.name == UnknownProductName
    ensures r.price == (if item.unitPriceAtSale.Some? then item.unitPriceAtSale.value else 0)
    ensures r.quantity == (if item.quantity.Some? then item.quantity.value else 0)
  {
    OrderItem(OrElse(item.product.value.name, UnknownProductName),
              OrElseNumber(item.unitPriceAtSale, 0),
              OrElseNumber(item.quantity, 0))
  }

  /** `sale_items.map(...)`: one order line per sale item, in order. */
  function MapItems(items: seq<SaleItemRecord>): (r: seq<OrderItem>)
    requires forall k :: 0 <= k < |items| ==> WellFormedItem(items[k])
    ensures |r| == |items|
    ensures forall k :: 0 <= k < |items| ==> r[k] == MapItem(items[k])
  {
    if items == [] then [] else [MapItem(items[0])] + MapItems(items[1..])
  }

  /** One order: a falsy `id`, `saleDate` or `status` becomes `''` and a
      falsy `totalAmount` becomes 0; every other field is carried over. */
  function MapSale(sale: SaleRecord): (r: Order)
    requires WellFormedSale(sale)
    ensures r.id == (if sale.id.Some? then sale.id.value else "")
    ensures r.total == (if sale.totalAmount.Some? then sale.totalAmount.value else 0)
    ensures r.date == (if sale.saleDate.Some? then sale.saleDate.value else "")
    ensures r.status == (if sale.status.Some? then sale.status.value else "")
    ensures |r.items| == |sale.saleItems.value|
    ensures forall k :: 0 <= k < |r.items| ==> r.items[k] == MapItem(sale.saleItems.value[k])
  {
    Order(OrElse(sale.id, ""), OrElseNumber(sale.totalAmount, 0), OrElse(sale.saleDate, ""),
          OrElse(sale.status, ""), MapItems(sale.saleItems.value))
  }

  /** `data.map(sale => ...)`: `None` when some record is not well formed
      (the mapper throws a `TypeError`). */
  function MapOrders(sales: seq<SaleRecord>): Option<seq<Order>> {
    if sales == [] then Some([])
    else if !WellFormedSale(sales[0]) then None
    else
      match MapOrders(sales[1..])
      case None => None
      case Some(rest) => Some([MapSale(sales[0])] + rest)
  }

  /** The mapping succeeds exactly when every record is well formed, and
      then gives one order per record, in the response's order. */
  lemma {:induction false} MapOrdersShape(sales: seq<SaleRecord>)
    ensures MapOrders(sales).Some? <==> forall i :: 0 <= i < |sales| ==> WellFormedSale(sales[i])
    ensures MapOrders(sales).Some? ==>
              |MapOrders(sales).value| == |sales| &&
              forall i :: 0 <= i < |sales| ==> MapOrders(sales).value[i] == MapSale(sales[i])
  {
    if sales != [] {
      MapOrdersShape(sales[1..]);
      if !(forall i :: 0 <= i < |sales| ==> WellFormedSale(sales[i])) {
        var i :| 0 <= i < |sales| && !WellFormedSale(sales[i]);
        if i > 0 {
          assert sales[1..][i - 1] == sales[i];
        }
      } else {
        assert forall i :: 0 <= i < |sales[1..]| ==> WellFormedSale(sales[1..][i]) by {
          forall i | 0 <= i < |sales[1..]| ensures WellFormedSale(sales[1..][i]) {
            assert sales[1..][i] == sales[i + 1];
          }
        }
        var r := MapOrders(sales).value;
        forall i | 0 <= i < |sales| ensures r[i] == MapSale(sales[i]) {
          if i > 0 {
            assert r[i] == MapOrders(sales[1..]).value[i - 1];
            assert sales[1..][i - 1] == sales[i];
          }
        }
      }
    }
  }

  /** Mapping is compositional: the orders of two batches of sales are the
      two batches' orders, one after the other, and one malformed record
      anywhere spoils the whole mapping. */
  lemma {:induction false} MapOrdersAppend(a: seq<SaleRecord>, b: seq<SaleRecord>)
    ensures MapOrders(a + b).Some? <==> MapOrders(a).Some? && MapOrders(b).Some?
    ensures MapOrders(a + b).Some? ==> MapOrders(a + b).value == MapOrders(a).value + MapOrders(b).value
  {
    if a == [] {
      assert a + b == b;
    } else {
      assert (a + b)[0] == a[0];
      assert (a + b)[1..] == a[1..] + b;
      MapOrdersAppend(a[1..], b);
    }
  }

  /** Every shown order line has a name: the page never renders a blank
      product name. */
  lemma MappedNamesNonEmpty(sales: seq<SaleRecord>)
    requires MapOrders(sales).Some?
    ensures forall i, k :: 0 <= i < |MapOrders(sales).value| && 0 <= k < |MapOrders(sales).value[i].items| ==>
              MapOrders(sales).value[i].items[k].name != ""
  {
    MapOrdersShape(sales);
    forall i, k | 0 <= i < |MapOrders(sales).value| && 0 <= k < |MapOrders(sales).value[i].items|
      ensures MapOrders(sales).value[i].items[k].name != ""
    {
      assert MapOrders(sales).value[i] == MapSale(sales[i]);
    }
  }

  class PurchaseHistoryState {
    var orders: seq<Order>
    var loading: bool
    var error: Option<string>
    var userId: string
    var accessToken: string

    constructor ()
      ensures orders == [] && loading && error == None && userId == "" && accessToken == ""
    {
      orders := [];
      loading := true;
      error := None;
      userId := "";
      accessToken := "";
    }

    /** The mount effect: stored credentials are adopted only when both are
        present; otherwise loading stops with the "not authenticated" error. */
    method Mount(storedUserId: Option<string>, storedToken: Option<string>)
      modifies this
      ensures var present := storedUserId.Some? && storedUserId.value != "" &&
                             storedToken.Some? && storedToken.value != "";
              (present ==> userId == storedUserId.value && accessToken == storedToken.value &&
                           loading == old(loading) && error == old(error)) &&
              (!present ==> userId == old(userId) && accessToken == old(accessToken) &&
                            !loading && error == Some(NotAuthenticatedError))
      ensures orders == old(orders)
    {
      if storedUserId.Some? && storedUserId.value != "" && storedToken.Some? && storedToken.value != "" {
        userId := storedUserId.value;
        accessToken := storedToken.value;
      } else {
        loading := false;
        error := Some(NotAuthenticatedError);
      }
    }

    /** `fetchPurchaseHistory`: nothing without a token; otherwise the mapped
        orders on success, and on any failure an empty list with the error's
        message; loading always ends. `typeError` is the message of the
        `TypeError` a malformed record raises. */
    method FetchPurchaseHistory(reply: Reply<seq<SaleRecord>>, typeError: string) returns (requested: bool)
      modifies this
      ensures requested <==> old(accessToken) != ""
      ensures !requested ==> orders == old(orders) && loading == old(loading) && error == old(error)
      ensures requested ==> !loading
      ensures requested && reply.Ok() && reply.body.Parsed? && MapOrders(reply.body.value).Some? ==>
                orders == MapOrders(reply.body.value).value && error == None
      ensures requested && !(reply.Ok() && reply.body.Parsed? && MapOrders(reply.body.value).Some?) ==>
                orders == [] &&
                error == Some("Erro ao carregar o histórico de compras: " + HistoryFailure(reply, typeError) + ".")
      ensures userId == old(userId) && accessToken == old(accessToken)
    {
      if accessToken == "" {
        return false;
      }
      requested := true;
      loading := true;
      error := None;
      var failure: Option<string> := None;
      match reply {
        case NetworkFailure(reason) =>
          failure := Some(reason);
        case Response(status, statusText, body) =>
          if !IsOk(status) {
            failure := Some("Falha ao carregar histórico: " + statusText);
          } else {
            match body {
              case Unparsable(reason) =>
                failure := Some(reason);
              case Parsed(data) =>
                var mapped := MapOrders(data);
                if mapped.Some? {
                  orders := mapped.value;
                } else {
                  failure := Some(typeError);
                }
            }
          }
      }
      if failure.Some? {
        error := Some("Erro ao carregar o histórico de compras: " + failure.value + ".");
        orders := [];
      }
      loading := false;
    }
  }

  /** The message of the error the `try` block raised. */
  function HistoryFailure(reply: Reply<seq<SaleRecord>>, typeError: string): string {
    match reply
    case NetworkFailure(reason) => reason
    case Response(status, statusText, body) =>
      if !IsOk(status) then "Falha ao carregar histórico: " + statusText
      else match body
        case Unparsable(reason) => reason
        case Parsed(data) => typeError
  }
}
