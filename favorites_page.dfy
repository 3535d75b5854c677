/** The favorites page: the catalog products whose id is in the favorites
    provider's list, loaded once the provider has finished loading. */
module FavoritesPage {
  import opened Common

  const LoadFailure := "Falha ao carregar detalhes dos produtos."

  /** `catalog.filter(product => favoriteIdSet.has(product.id))`. */
  function KeepFavorites(catalog: seq<Product>, favoriteIds: set<ProductId>): (r: seq<Product>)
    ensures IsSubsequence(r, catalog)
    ensures forall p :: multiset(r)[p] == if p.id in favoriteIds then multiset(catalog)[p] else 0
  {
    if catalog == [] then []
    else
      assert catalog == [catalog[0]] + catalog[1..];
      if catalog[0].id in favoriteIds then [catalog[0]] + KeepFavorites(catalog[1..], favoriteIds)
      else KeepFavorites(catalog[1..], favoriteIds)
  }

  /** The filter keeps exactly the favorite catalog entries: none of them is
      dropped and nothing else is kept. */
  lemma KeepFavoritesMembers(catalog: seq<Product>, favoriteIds: set<ProductId>)
    ensures forall p :: p in KeepFavorites(catalog, favoriteIds) <==> p in catalog && p.id in favoriteIds
  {
    var r := KeepFavorites(catalog, favoriteIds);
    forall p ensures p in r <==> p in catalog && p.id in favoriteIds {
      assert p in r <==> multiset(r)[p] > 0;
      assert p in catalog <==> multiset(catalog)[p] > 0;
    }
  }

  class FavoritesPageState {
    var products: seq<Product>
    var loadingProducts: bool
    var authActionMessage: string

    constructor ()
      ensures products == [] && loadingProducts && authActionMessage == ""
    {
      products := [];
      loadingProducts := true;
      authActionMessage := "";
    }

    /** `fetchFavoriteProducts`: without a token it only stops loading; while
        the provider is still loading it does nothing; no favorites empties
        the list without a request; a catalog reply installs the favorite
        products in catalog order; a failure keeps the products and reports
        the error. */
    method FetchFavoriteProducts(hasToken: bool, favoritesLoading: bool,
                                 favoriteIds: Option<seq<ProductId>>, reply: Reply<seq<Product>>)
      returns (requested: bool)
      modifies this
      ensures requested <==> hasToken && !favoritesLoading && favoriteIds.Some? && favoriteIds.value != []
      ensures !hasToken ==>
                !loadingProducts && products == old(products) && authActionMessage == old(authActionMessage)
      ensures hasToken && favoritesLoading ==>
                loadingProducts == old(loadingProducts) && products == old(products) &&
                authActionMessage == old(authActionMessage)
      ensures hasToken && !favoritesLoading ==> !loadingProducts
      ensures hasToken && !favoritesLoading && !requested ==>
                products == [] && authActionMessage == old(authActionMessage)
      ensures requested && reply.Ok() && reply.body.Parsed? ==>
                products == KeepFavorites(reply.body.value, set id | id in favoriteIds.value) &&
                authActionMessage == old(authActionMessage)
      ensures requested && !(reply.Ok() && reply.body.Parsed?) ==>
                products == old(products) &&
                authActionMessage == "Erro ao carregar produtos: " + FailureText(reply) + "."
    {
      requested := false;
      if !hasToken {
        loadingProducts := false;
        return;
      }
      if favoritesLoading {
        return;
      }
      loadingProducts := true;
      if favoriteIds.None? || |favoriteIds.value| == 0 {
        products := [];
        loadingProducts := false;
        return;
      }
      requested := true;
      if reply.Ok() && reply.body.Parsed? {
        var favoriteIdSet := set id | id in favoriteIds.value;
        products := KeepFavorites(reply.body.value, favoriteIdSet);
      } else {
        authActionMessage := "Erro ao carregar produtos: " + FailureText(reply) + ".";
      }
      loadingProducts := false;
    }
  }

  /** The message of the error that ended the catalog fetch. */
  function FailureText(reply: Reply<seq<Product>>): string {
    match reply
    case NetworkFailure(reason) => reason
    case Response(status, _, body) =>
      if !IsOk(status) then LoadFailure
      else match body
        case Unparsable(reason) => reason
        case Parsed(_) => ""
  }
}
