/** The favorites provider: the list of favorite product ids
    (`favoriteProductIds`) and its `loading` flag, kept in step with the
    server's `/api/favorites` resource. */
module FavoriteContext {
  import opened Common
  import opened JsBuiltins

  /** One record of `GET /api/favorites`. */
  datatype FavoriteRecord = FavoriteRecord(productId: ProductId)

  const NotAuthenticatedAlert := "Erro: Usuário não autenticado. Faça login para favoritar produtos."
  const UnknownError := "Erro desconhecido"

  /** `data.map(item => item.product_id)`. */
  function ProductIdsOf(records: seq<FavoriteRecord>): (r: seq<ProductId>)
    ensures |r| == |records|
    ensures forall i :: 0 <= i < |records| ==> r[i] == records[i].productId
  {
    if records == [] then [] else [records[0].productId] + ProductIdsOf(records[1..])
  }

  /** `ids.filter(id => id !== productId)`: every occurrence of `productId`
      goes, everything else stays, in order. */
  function RemoveAll(ids: seq<ProductId>, productId: ProductId): (r: seq<ProductId>)
    ensures productId !in r
    ensures forall x :: x != productId ==> multiset(r)[x] == multiset(ids)[x]
    ensures IsSubsequence(r, ids)
  {
    if ids == [] then []
    else
      assert ids == [ids[0]] + ids[1..];
      if ids[0] == productId then RemoveAll(ids[1..], productId)
      else [ids[0]] + RemoveAll(ids[1..], productId)
  }

  /** No id appears twice. */
  predicate NoDuplicates(ids: seq<ProductId>) {
    forall i, j :: 0 <= i < j < |ids| ==> ids[i] != ids[j]
  }

  /** Whether the server acknowledges the toggle: 204 or 404 for a delete of
      a current favorite, 200 or 201 for the creation of a new one. */
  predicate ToggleSucceeds(ids: seq<ProductId>, productId: ProductId, hasToken: bool, reply: Reply<Fields>) {
    hasToken &&
    if productId in ids then reply.HasStatus(204) || reply.HasStatus(404)
    else reply.HasStatus(200) || reply.HasStatus(201)
  }

  /** The list after `toggleFavorite`: unchanged unless the server
      acknowledged; then the id is filtered out, or appended. */
  function ToggledIds(ids: seq<ProductId>, productId: ProductId, hasToken: bool, reply: Reply<Fields>): seq<ProductId> {
    if !ToggleSucceeds(ids, productId, hasToken, reply) then ids
    else if productId in ids then RemoveAll(ids, productId)
    else ids + [productId]
  }

  /** The alert of a toggle the server refused: the body's `error`, its
      fallback for the branch taken, 'Erro desconhecido' for a body that is
      not JSON, or the error that ended the request. */
  function ToggleFailureAlert(removing: bool, reply: Reply<Fields>): string {
    "Falha ao atualizar favoritos: " +
    match reply
    case NetworkFailure(reason) => reason
    case Response(_, _, body) =>
      match body
      case Unparsable(_) => UnknownError
      case Parsed(data) =>
        OrElse(data.error, if removing then "Falha ao remover o produto." else "Falha ao adicionar o produto.")
  }

  /** A successful toggle flips the id's membership and touches no other
      id; a failed one changes nothing. */
  lemma ToggleFlips(ids: seq<ProductId>, productId: ProductId, hasToken: bool, reply: Reply<Fields>)
    ensures ToggleSucceeds(ids, productId, hasToken, reply) ==>
              (productId in ToggledIds(ids, productId, hasToken, reply) <==> productId !in ids)
    ensures !ToggleSucceeds(ids, productId, hasToken, reply) ==> ToggledIds(ids, productId, hasToken, reply) == ids
    ensures forall x :: x != productId ==> (x in ToggledIds(ids, productId, hasToken, reply) <==> x in ids)
  {
    forall x | x != productId ensures x in ToggledIds(ids, productId, hasToken, reply) <==> x in ids {
      var r := ToggledIds(ids, productId, hasToken, reply);
      assert x in r <==> multiset(r)[x] > 0;
      assert x in ids <==> multiset(ids)[x] > 0;
    }
  }

  /** Toggling never introduces a duplicate: the append happens only when the
      id was absent. */
  lemma ToggleKeepsNoDuplicates(ids: seq<ProductId>, productId: ProductId, hasToken: bool, reply: Reply<Fields>)
    requires NoDuplicates(ids)
    ensures NoDuplicates(ToggledIds(ids, productId, hasToken, reply))
  {
    if ToggleSucceeds(ids, productId, hasToken, reply) && productId in ids {
      SubsequenceKeepsNoDuplicates(RemoveAll(ids, productId), ids);
    }
  }

  lemma {:induction false} SubsequenceKeepsNoDuplicates(a: seq<ProductId>, b: seq<ProductId>)
    requires IsSubsequence(a, b) && NoDuplicates(b)
    ensures NoDuplicates(a)
    decreases |b|
  {
    if a != [] {
      if a[0] == b[0] && IsSubsequence(a[1..], b[1..]) {
        SubsequenceKeepsNoDuplicates(a[1..], b[1..]);
        SubsequenceElements(a[1..], b[1..]);
        forall j | 0 < j < |a| ensures a[0] != a[j] {
          assert a[j] == a[1..][j - 1];
          assert a[j] in b[1..];
          var m :| 0 <= m < |b[1..]| && b[1..][m] == a[j];
          assert b[m + 1] == a[j];
        }
        forall i, j | 0 <= i < j < |a| ensures a[i] != a[j] {
          if i > 0 {
            assert a[i] == a[1..][i - 1] && a[j] == a[1..][j - 1];
          }
        }
      } else {
        assert NoDuplicates(b[1..]) by {
          forall i, j | 0 <= i < j < |b[1..]| ensures b[1..][i] != b[1..][j] {
            assert b[1..][i] == b[i + 1] && b[1..][j] == b[j + 1];
          }
        }
        SubsequenceKeepsNoDuplicates(a, b[1..]);
      }
    }
  }

  lemma {:induction false} SubsequenceElements<T>(a: seq<T>, b: seq<T>)
    requires IsSubsequence(a, b)
    ensures forall x :: x in a ==> x in b
    decreases |b|
  {
    if a != [] {
      if a[0] == b[0] && IsSubsequence(a[1..], b[1..]) {
        SubsequenceElements(a[1..], b[1..]);
        forall x | x in a ensures x in b {
          if x != a[0] {
            assert x in a[1..];
            assert x in b[1..];
          }
        }
      } else {
        SubsequenceElements(a, b[1..]);
        forall x | x in a ensures x in b {
          assert x in b[1..];
        }
      }
    }
  }

  /** Two consecutive acknowledged toggles of one id restore its membership;
      when the id started absent they restore the list exactly. */
  lemma ToggleTwiceRestores(ids: seq<ProductId>, productId: ProductId, hasToken: bool,
                            first: Reply<Fields>, second: Reply<Fields>)
    requires ToggleSucceeds(ids, productId, hasToken, first)
    requires ToggleSucceeds(ToggledIds(ids, productId, hasToken, first), productId, hasToken, second)
    ensures var after := ToggledIds(ToggledIds(ids, productId, hasToken, first), productId, hasToken, second);
            (productId in after <==> productId in ids) &&
            (productId !in ids ==> after == ids)
  {
    var mid := ToggledIds(ids, productId, hasToken, first);
    ToggleFlips(ids, productId, hasToken, first);
    ToggleFlips(mid, productId, hasToken, second);
    if productId !in ids {
      RemoveAbsentAppended(ids, productId);
    }
  }

  lemma {:induction false} RemoveAbsentAppended(ids: seq<ProductId>, productId: ProductId)
    requires productId !in ids
    ensures RemoveAll(ids + [productId], productId) == ids
  {
    if ids == [] {
      assert [] + [productId] == [productId];
      assert [productId][1..] == [];
    } else {
      assert (ids + [productId])[1..] == ids[1..] + [productId];
      RemoveAbsentAppended(ids[1..], productId);
    }
  }

  class FavoriteProvider {
    var favoriteProductIds: seq<ProductId>
    var loading: bool

    constructor ()
      ensures favoriteProductIds == [] && loading
    {
      favoriteProductIds := [];
      loading := true;
    }

    /** `fetchFavorites`: without a token only the loading flag drops; with
        one, an ok reply installs the records' ids in response order, and
        every failure (401 included) empties the list. */
    method FetchFavorites(hasToken: bool, reply: Reply<seq<FavoriteRecord>>)
      modifies this
      ensures !loading
      ensures !hasToken ==> favoriteProductIds == old(favoriteProductIds)
      ensures hasToken && reply.Ok() && reply.body.Parsed? ==>
                favoriteProductIds == ProductIdsOf(reply.body.value)
      ensures hasToken && !(reply.Ok() && reply.body.Parsed?) ==> favoriteProductIds == []
    {
      if !hasToken {
        loading := false;
        return;
      }
      loading := true;
      if !reply.Ok() {
        if reply.HasStatus(401) {
          favoriteProductIds := [];
        }
        favoriteProductIds := [];
      } else if reply.body.Unparsable? {
        favoriteProductIds := [];
      } else {
        favoriteProductIds := ProductIdsOf(reply.body.value);
      }
      loading := false;
    }

    /** `toggleFavorite(productId)`: branches on current membership; without
        a token it answers false; a delete acknowledged by 204 or 404
        filters the id out, a creation acknowledged by 200 or 201 appends it,
        and both answer true; anything else alerts and answers false. */
    method ToggleFavorite(productId: ProductId, hasToken: bool, reply: Reply<Fields>)
      returns (success: bool, alert: Option<string>)
      modifies this
      ensures success == ToggleSucceeds(old(favoriteProductIds), productId, hasToken, reply)
      ensures favoriteProductIds == ToggledIds(old(favoriteProductIds), productId, hasToken, reply)
      ensures !hasToken ==> alert == Some(NotAuthenticatedAlert)
      ensures hasToken && !success ==>
                alert == Some(ToggleFailureAlert(productId in old(favoriteProductIds), reply))
      ensures success ==> alert == None
      ensures loading == old(loading)
    {
      var isCurrentlyFavorite := ArrayIncludes(favoriteProductIds, productId);
      if !hasToken {
        return false, Some(NotAuthenticatedAlert);
      }
      if isCurrentlyFavorite {
        if reply.HasStatus(204) {
          favoriteProductIds := RemoveAll(favoriteProductIds, productId);
        } else if reply.HasStatus(404) {
          favoriteProductIds := RemoveAll(favoriteProductIds, productId);
        } else {
          return false, Some(ToggleFailureAlert(true, reply));
        }
      } else {
        if reply.HasStatus(201) || reply.HasStatus(200) {
          favoriteProductIds := favoriteProductIds + [productId];
        } else {
          return false, Some(ToggleFailureAlert(false, reply));
        }
      }
      return true, None;
    }

    /** `checkIsFavorite(productId)`: a membership test on the current list. */
    function CheckIsFavorite(productId: ProductId): (r: bool)
      reads this
      ensures r <==> productId in favoriteProductIds
    {
      ArrayIncludes(favoriteProductIds, productId)
    }
  }
}
