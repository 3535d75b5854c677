/** The customer dashboard's catalog view: the search filter, the page
    of twelve products shown, the page count and page changes. */
module CustomerDashboard {
  import opened Common
  import opened JsBuiltins

  const ProductsPerPage := 12

  /** `product.name && product.name.toLowerCase().includes(term.toLowerCase())`. */
  predicate Matches(p: Product, term: string) {
    p.name != "" && Includes(ToLowerCase(p.name), ToLowerCase(term))
  }

  /** `products.filter(product => Matches(product, term))`. */
  function FilterMatching(products: seq<Product>, term: string): (r: seq<Product>)
    ensures IsSubsequence(r, products)
    ensures forall p :: multiset(r)[p] == if Matches(p, term) then multiset(products)[p] else 0
  {
    if products == [] then []
    else
      assert products == [products[0]] + products[1..];
      if Matches(products[0], term) then [products[0]] + FilterMatching(products[1..], term)
      else FilterMatching(products[1..], term)
  }

  /** `filteredProducts`: every product for an empty search term, else the
      matching ones. */
  function FilterProducts(products: seq<Product>, searchTerm: string): seq<Product> {
    if searchTerm == "" then products else FilterMatching(products, searchTerm)
  }

  /** The lower-cased term occurs somewhere in the lower-cased name. */
  ghost predicate NameContains(p: Product, term: string) {
    exists i :: OccursAt(ToLowerCase(p.name), ToLowerCase(term), i)
  }

  /** An empty term keeps the list as it is; a non-empty one keeps, in their
      order, exactly the products with a non-empty name that contains the
      term, ignoring case. */
  lemma FilterProductsSpec(products: seq<Product>, searchTerm: string)
    ensures searchTerm == "" ==> FilterProducts(products, searchTerm) == products
    ensures IsSubsequence(FilterProducts(products, searchTerm), products)
    ensures searchTerm != "" ==>
              forall p :: p in FilterProducts(products, searchTerm) <==>
                (p in products && p.name != "" && NameContains(p, searchTerm))
  {
    if searchTerm == "" {
      SubsequenceOfItself(products);
    } else {
      var r := FilterMatching(products, searchTerm);
      forall p ensures p in r <==> (p in products && p.name != "" && NameContains(p, searchTerm)) {
        assert p in r <==> multiset(r)[p] > 0;
        assert p in products <==> multiset(products)[p] > 0;
        IncludesIff(ToLowerCase(p.name), ToLowerCase(searchTerm));
      }
    }
  }

  lemma {:induction false} SubsequenceOfItself<T>(s: seq<T>)
    ensures IsSubsequence(s, s)
  {
    if s != [] {
      SubsequenceOfItself(s[1..]);
    }
  }

  /** `Math.ceil(count / 12)`: the fewest pages of twelve that hold `count`
      products. */
  function TotalPages(count: nat): (r: nat)
    ensures count <= r * ProductsPerPage < count + ProductsPerPage
  {
    (count + ProductsPerPage - 1) / ProductsPerPage
  }

  /** `filtered.slice((page - 1) * 12, page * 12)`. */
  function PageSlice(filtered: seq<Product>, page: int): seq<Product> {
    Slice(filtered, (page - 1) * ProductsPerPage, page * ProductsPerPage)
  }

  /** For a page from 1 on, the slice is the page's stretch of the filtered
      list, at most twelve products long; a page in `[1, TotalPages]` is
      never empty. */
  lemma PageSliceWindow(filtered: seq<Product>, page: int)
    requires page >= 1
    ensures PageSlice(filtered, page) ==
            filtered[Min((page - 1) * ProductsPerPage, |filtered|)..Min(page * ProductsPerPage, |filtered|)]
    ensures |PageSlice(filtered, page)| <= ProductsPerPage
    ensures page <= TotalPages(|filtered|) ==> PageSlice(filtered, page) != []
  {
    SliceNonNegative(filtered, (page - 1) * ProductsPerPage, page * ProductsPerPage);
  }

  /** The pages 1 to `n`, one after the other. */
  function PagesUpTo(filtered: seq<Product>, n: nat): seq<Product> {
    if n == 0 then [] else PagesUpTo(filtered, n - 1) + PageSlice(filtered, n)
  }

  lemma {:induction false} PagesUpToPrefix(filtered: seq<Product>, n: nat)
    ensures PagesUpTo(filtered, n) == filtered[..Min(n * ProductsPerPage, |filtered|)]
  {
    if n > 0 {
      PagesUpToPrefix(filtered, n - 1);
      PageSliceWindow(filtered, n);
      var a := Min((n - 1) * ProductsPerPage, |filtered|);
      var b := Min(n * ProductsPerPage, |filtered|);
      assert filtered[..a] + filtered[a..b] == filtered[..b];
    }
  }

  /** Reading pages 1 to `TotalPages` in turn shows the whole filtered list,
      each product once, in order. */
  lemma PagesCoverFiltered(filtered: seq<Product>)
    ensures PagesUpTo(filtered, TotalPages(|filtered|)) == filtered
  {
    PagesUpToPrefix(filtered, TotalPages(|filtered|));
  }

  class CustomerDashboardState {
    var products: seq<Product>
    var searchTerm: string
    var currentPage: int

    ghost predicate Valid()
      reads this
    {
      currentPage >= 1
    }

    constructor ()
      ensures Valid()
      ensures products == [] && searchTerm == "" && currentPage == 1
    {
      products := [];
      searchTerm := "";
      currentPage := 1;
    }

    /** The search box's `onChange`: a new term makes `filteredProducts`
        recompute, and with it the reset to page 1 for a non-empty term. */
    method SetSearchTerm(term: string) returns (filtered: seq<Product>)
      requires Valid()
      modifies this
      ensures Valid()
      ensures searchTerm == term && products == old(products)
      ensures filtered == FilterProducts(products, term)
      ensures currentPage == (if term != old(searchTerm) && term != "" then 1 else old(currentPage))
    {
      if term == searchTerm {
        return FilterProducts(products, searchTerm);
      }
      searchTerm := term;
      filtered := FilteredProducts();
    }

    /** Recomputing `filteredProducts`, which happens when the products or
        the search term change: a non-empty search sends the view back to
        page 1. */
    method FilteredProducts() returns (filtered: seq<Product>)
      requires Valid()
      modifies this
      ensures Valid()
      ensures filtered == FilterProducts(products, searchTerm)
      ensures currentPage == (if searchTerm != "" then 1 else old(currentPage))
      ensures products == old(products) && searchTerm == old(searchTerm)
    {
      if searchTerm != "" && currentPage != 1 {
        currentPage := 1;
      }
      filtered := FilterProducts(products, searchTerm);
    }

    /** `totalPages` of the current filter. */
    function PageCount(): nat
      reads this
    {
      TotalPages(|FilterProducts(products, searchTerm)|)
    }

    /** `currentProducts`: the current page's products, at most twelve. */
    function CurrentProducts(): (r: seq<Product>)
      reads this
      requires Valid()
      ensures |r| <= ProductsPerPage
      ensures currentPage <= PageCount() ==> r != []
    {
      PageSliceWindow(FilterProducts(products, searchTerm), currentPage);
      PageSlice(FilterProducts(products, searchTerm), currentPage)
    }

    /** `paginate(pageNumber)`: moves only to a page in `[1, totalPages]`. */
    method Paginate(pageNumber: int)
      requires Valid()
      modifies this
      ensures Valid()
      ensures currentPage == (if 1 <= pageNumber <= PageCount() then pageNumber else old(currentPage))
      ensures products == old(products) && searchTerm == old(searchTerm)
    {
      if pageNumber >= 1 && pageNumber <= PageCount() {
        currentPage := pageNumber;
      }
    }
  }
}
