/** Values shared by every handler of the storefront: the shape of a server
    reply, JavaScript's `a || b` fallback on optional text fields, catalog
    products, and the subsequence relation used to state what a `filter`
    keeps. */
module Common {

  datatype Option<+T> = None | Some(value: T)

  /** Product ids as the REST API returns them; the empty string stands for
      every falsy id (`null`, `undefined`, `''`). */
  type ProductId = string

  /** An HTTP status code, as `Response.status`. */
  type Status = nat

  /** `Response.ok`: the status lies in 200-299. */
  predicate IsOk(status: Status) {
    200 <= status <= 299
  }

  /** The settled value of `await response.json()`: the decoded object, or the
      rejection of a body that is not JSON, carrying the parser's message. */
  datatype Body<+T> = Parsed(value: T) | Unparsable(reason: string)

  /** The settled value of one `fetch` call: a rejection (the request never
      completed) with its error message, or a response. */
  datatype Reply<+T> =
    | NetworkFailure(reason: string)
    | Response(status: Status, statusText: string, body: Body<T>)
  {
    predicate Ok() {
      Response? && IsOk(status)
    }

    predicate HasStatus(s: Status) {
      Response? && status == s
    }
  }

  /** The text fields an error (or acknowledgement) body may carry, as the
      handlers read them: `data.message` and `data.error`. */
  datatype Fields = Fields(message: Option<string>, error: Option<string>)

  /** A catalog product (`/api/products`). Prices are integer cents. */
  datatype Product = Product(id: ProductId, name: string, price: int, image: string)

  /** JavaScript's `field || fallback` on an optional text field: a missing or
      empty field is falsy and yields the fallback. */
  function OrElse(field: Option<string>, fallback: string): (r: string)
    ensures field.Some? && field.value != "" ==> r == field.value
    ensures field.None? || field.value == "" ==> r == fallback
  {
    if field.Some? && field.value != "" then field.value else fallback
  }

  /** JavaScript's `n || fallback` on an optional number: a missing value and
      0 are falsy. */
  function OrElseNumber(field: Option<int>, fallback: int): (r: int)
    ensures field.Some? && field.value != 0 ==> r == field.value
    ensures field.None? || field.value == 0 ==> r == fallback
  {
    if field.Some? && field.value != 0 then field.value else fallback
  }

  /** `a` is obtained from `b` by deleting elements, so it keeps `b`'s order. */
  ghost predicate IsSubsequence<T>(a: seq<T>, b: seq<T>)
    decreases |b|
  {
    a == [] ||
    (b != [] && ((a[0] == b[0] && IsSubsequence(a[1..], b[1..])) || IsSubsequence(a, b[1..])))
  }
}
