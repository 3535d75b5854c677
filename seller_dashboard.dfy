/** The seller dashboard: the confirmation modal and its dispatch, product
    deletion, the sales metrics, and the session-ending handlers (logout and
    account deactivation). */
module SellerDashboard {
  import opened Common
  import opened JsBuiltins

  /** The modal's `action`: `null`, or one of the three confirmable actions. */
  datatype ModalAction = NoAction | LogoutAction | DeactivateAction | DeleteProductAction

  /** `modalState`. Fields a state object leaves out (`undefined`) are the
      empty string, `false` or `""` for `productId`, as they are all falsy. */
  datatype ModalState = ModalState(isOpen: bool, action: ModalAction, title: string, message: string,
                                   confirmText: string, isDestructive: bool, productId: ProductId)

  /** `initialModalState`, and the `{isOpen: false, action: null}` the session
      handlers install. */
  const ClosedModal := ModalState(false, NoAction, "", "", "", false, "")

  const LogoutModal := ModalState(true, LogoutAction, "Confirmar Logout",
                                  "Tem certeza de que deseja encerrar sua sessão?", "Sair", false, "")
  const DeactivateModal := ModalState(true, DeactivateAction, "Desativar Conta",
                                      "ATENÇÃO: Deseja prosseguir? Essa ação é irreversível.", "Desativar", true, "")

  const LoadFailure := "Falha ao carregar dados. Token inválido ou expirado."
  const ForbiddenDelete := "Acesso negado. Apenas o vendedor criador pode excluir este produto."
  const DeleteSuccess := "Produto excluído com sucesso!"
  const LogoutDone := "Logout bem-sucedido. Redirecionando..."
  const DeactivateDone := "Conta desativada com sucesso. Sessão encerrada."
  const DeactivateFailure := "Falha ao desativar a conta."
  const LoginPage := "/login"

  /** `products.find(p => p.id === productId)`: the first product with that id. */
  function FindProduct(products: seq<Product>, productId: ProductId): (r: Option<Product>)
    ensures r.None? <==> forall i :: 0 <= i < |products| ==> products[i].id != productId
    ensures r.Some? ==> exists i :: 0 <= i < |products| && products[i] == r.value &&
                          r.value.id == productId &&
                          forall j :: 0 <= j < i ==> products[j].id != productId
  {
    if products == [] then None
    else if products[0].id == productId then Some(products[0])
    else
      var rest := FindProduct(products[1..], productId);
      assert rest.Some? ==> exists i :: 0 <= i < |products[1..]| && products[1..][i] == rest.value &&
                              forall j :: 0 <= j < i ==> products[1..][j].id != productId;
      if rest.Some? then
        var i :| 0 <= i < |products[1..]| && products[1..][i] == rest.value &&
                 forall j :: 0 <= j < i ==> products[1..][j].id != productId;
        assert products[i + 1] == rest.value;
        assert forall j :: 0 <= j < i + 1 ==> products[j].id != productId by {
          forall j | 0 <= j < i + 1 ensures products[j].id != productId {
            if j > 0 {
              assert products[j] == products[1..][j - 1];
            }
          }
        }
        rest
      else
        assert forall i :: 0 <= i < |products| ==> products[i].id != productId by {
          forall i | 0 <= i < |products| ensures products[i].id != productId {
            if i > 0 {
              assert products[i] == products[1..][i - 1];
            }
          }
        }
        None
  }

  /** The confirmation text of the delete modal. */
  function DeleteMessage(productName: string): string {
    "Tem certeza que deseja excluir permanentemente o produto \"" + productName + "\"?"
  }

  /** `openModal(action, productId)`: logout and deactivate open their fixed
      modals; a delete with a truthy id opens the delete modal naming the
      product (or 'este produto' when it is not listed); anything else keeps
      the current modal. */
  function OpenModal(current: ModalState, products: seq<Product>, action: string, productId: ProductId): (r: ModalState)
    ensures action == "logout" ==> r == LogoutModal
    ensures action == "deactivate" ==> r == DeactivateModal
    ensures action == "deleteProduct" && productId != "" ==>
              r.isOpen && r.action == DeleteProductAction && r.productId == productId && r.isDestructive &&
              r.message == DeleteMessage(if FindProduct(products, productId).Some?
                                         then FindProduct(products, productId).value.name
                                         else "este produto")
    ensures action !in {"logout", "deactivate", "deleteProduct"} || (action == "deleteProduct" && productId == "") ==>
              r == current
  {
    if action == "logout" then LogoutModal
    else if action == "deactivate" then DeactivateModal
    else if action == "deleteProduct" && productId != "" then
      var found := FindProduct(products, productId);
      var productName := if found.Some? then found.value.name else "este produto";
      ModalState(true, DeleteProductAction, "Excluir Produto", DeleteMessage(productName), "Excluir", true, productId)
    else current
  }

  /** Which handler the modal's confirm button runs. */
  datatype Dispatch = Nothing | RunLogout | RunDeactivate | RunDelete(productId: ProductId)

  /** `handleModalConfirm`: dispatch on the modal's action; a delete runs only
      with a truthy `productId`. */
  function ConfirmDispatch(modal: ModalState): (r: Dispatch)
    ensures r.RunLogout? <==> modal.action == LogoutAction
    ensures r.RunDeactivate? <==> modal.action == DeactivateAction
    ensures r.RunDelete? <==> modal.action == DeleteProductAction && modal.productId != ""
    ensures r.RunDelete? ==> r.productId == modal.productId
  {
    match modal.action
    case LogoutAction => RunLogout
    case DeactivateAction => RunDeactivate
    case DeleteProductAction => if modal.productId != "" then RunDelete(modal.productId) else Nothing
    case NoAction => Nothing
  }

  /** Confirming a modal that `openModal` opened runs the handler of the
      action it was opened for, on the id it was opened with. */
  lemma OpenThenConfirm(current: ModalState, products: seq<Product>, action: string, productId: ProductId)
    requires action in {"logout", "deactivate", "deleteProduct"}
    requires action == "deleteProduct" ==> productId != ""
    ensures var d := ConfirmDispatch(OpenModal(current, products, action, productId));
            (action == "logout" ==> d == RunLogout) &&
            (action == "deactivate" ==> d == RunDeactivate) &&
            (action == "deleteProduct" ==> d == RunDelete(productId))
  {
  }

  /** `prevProducts.filter(p => p.id !== productId)`. */
  function WithoutProduct(products: seq<Product>, productId: ProductId): (r: seq<Product>)
    ensures forall i :: 0 <= i < |r| ==> r[i].id != productId
    ensures forall p: Product :: p.id != productId ==> multiset(r)[p] == multiset(products)[p]
    ensures IsSubsequence(r, products)
  {
    if products == [] then []
    else
      assert products == [products[0]] + products[1..];
      if products[0].id == productId then WithoutProduct(products[1..], productId)
      else [products[0]] + WithoutProduct(products[1..], productId)
  }

  /** Deleting an id that is not listed leaves the list as it was, so a
      second delete of the same id changes nothing. */
  lemma {:induction false} WithoutAbsentProduct(products: seq<Product>, productId: ProductId)
    requires forall i :: 0 <= i < |products| ==> products[i].id != productId
    ensures WithoutProduct(products, productId) == products
  {
    if products != [] {
      WithoutAbsentProduct(products[1..], productId);
    }
  }

  lemma DeleteIdempotent(products: seq<Product>, productId: ProductId)
    ensures WithoutProduct(WithoutProduct(products, productId), productId) == WithoutProduct(products, productId)
  {
    WithoutAbsentProduct(WithoutProduct(products, productId), productId);
  }

  /** One element of `data.productsBySeller`. */
  datatype SellerSales = SellerSales(totalSold: int)

  /** The body of `GET /api/metrics`; `productsBySeller` and `bestSeller`
      may be absent. */
  datatype MetricsData = MetricsData(productsBySeller: Option<seq<SellerSales>>, totalRevenue: int,
                                     bestSeller: Option<string>)

  /** `dashboardData`; `totalProducts` is absent until metrics first load. */
  datatype DashboardData = DashboardData(totalSales: int, totalRevenue: int, totalProducts: Option<nat>,
                                         bestSellingProduct: string)

  /** `productsBySeller.reduce((sum, seller) => sum + seller.total_sold, 0)`. */
  function TotalSales(sellers: seq<SellerSales>): int {
    if sellers == [] then 0
    else TotalSales(sellers[..|sellers| - 1]) + sellers[|sellers| - 1].totalSold
  }

  /** The sum splits over concatenation, so it does not depend on how the
      sellers are grouped. */
  lemma {:induction false} TotalSalesAppend(a: seq<SellerSales>, b: seq<SellerSales>)
    ensures TotalSales(a + b) == TotalSales(a) + TotalSales(b)
    decreases |b|
  {
    if b == [] {
      assert a + b == a;
    } else {
      assert (a + b)[..|a + b| - 1] == a + b[..|b| - 1];
      assert (a + b)[|a + b| - 1] == b[|b| - 1];
      TotalSalesAppend(a, b[..|b| - 1]);
    }
  }

  /** With no negative count the total is at least each seller's count. */
  lemma {:induction false} TotalSalesBounds(sellers: seq<SellerSales>)
    requires forall i :: 0 <= i < |sellers| ==> sellers[i].totalSold >= 0
    ensures TotalSales(sellers) >= 0
    ensures forall i :: 0 <= i < |sellers| ==> sellers[i].totalSold <= TotalSales(sellers)
  {
    if sellers != [] {
      var init := sellers[..|sellers| - 1];
      TotalSalesBounds(init);
      forall i | 0 <= i < |sellers| ensures sellers[i].totalSold <= TotalSales(sellers) {
        if i < |sellers| - 1 {
          assert sellers[i] == init[i];
        }
      }
    }
  }

  /** The metrics a reply installs: `totalProducts` is the length of the
      product list the handler captured, the best seller's name or 'N/A'. */
  function Metrics(data: MetricsData, capturedProducts: nat): (r: DashboardData)
    requires data.productsBySeller.Some?
    ensures r.totalSales == TotalSales(data.productsBySeller.value)
    ensures r.totalRevenue == data.totalRevenue && r.totalProducts == Some(capturedProducts)
    ensures r.bestSellingProduct == (if data.bestSeller.Some? then data.bestSeller.value else "N/A")
  {
    DashboardData(TotalSales(data.productsBySeller.value), data.totalRevenue, Some(capturedProducts),
                  if data.bestSeller.Some? then data.bestSeller.value else "N/A")
  }

  /** The message of a metrics or inventory load that failed with `reason`;
      a reason ending in '.' shows two dots, as in the page. */
  function LoadErrorMessage(reason: string): string {
    "Erro ao carregar dados: " + reason + ". Faça login novamente."
  }

  /** The message `handleConfirmDeleteProduct` ends with: the success text
      for a 204, otherwise the reason the delete failed. */
  function DeleteOutcome(reply: Reply<Fields>): string {
    match reply
    case NetworkFailure(reason) => "Erro ao excluir produto: " + reason
    case Response(status, _, _) =>
      if status == 204 then DeleteSuccess
      else if status == 403 then "Erro ao excluir produto: " + ForbiddenDelete
      else "Erro ao excluir produto: Falha ao excluir produto. Status: " + NatToString(status)
  }

  /** The message `handleDeactivate` ends with. */
  function DeactivateOutcome(reply: Reply<Fields>): string {
    if reply.Ok() then DeactivateDone
    else "Erro na Desativação: " + (if reply.NetworkFailure? then reply.reason else DeactivateFailure)
  }

  class SellerDashboardState {
    var userId: string
    var accessToken: string
    var authActionMessage: string
    var modalState: ModalState
    var dashboardData: DashboardData
    var products: seq<Product>
    var loadingMetrics: bool

    constructor ()
      ensures userId == "" && accessToken == "" && authActionMessage == "" && modalState == ClosedModal
      ensures dashboardData == DashboardData(0, 0, None, "") && products == [] && !loadingMetrics
    {
      userId := "";
      accessToken := "";
      authActionMessage := "";
      modalState := ClosedModal;
      dashboardData := DashboardData(0, 0, None, "");
      products := [];
      loadingMetrics := false;
    }

    /** The mount effect: both stored credentials are adopted, or the page
        redirects to the login page. */
    method Mount(storedUserId: Option<string>, storedToken: Option<string>) returns (redirect: Option<string>)
      modifies this
      ensures var present := storedUserId.Some? && storedUserId.value != "" &&
                             storedToken.Some? && storedToken.value != "";
              (present ==> redirect == None && userId == storedUserId.value && accessToken == storedToken.value) &&
              (!present ==> redirect == Some(LoginPage) && userId == old(userId) && accessToken == old(accessToken))
      ensures products == old(products) && modalState == old(modalState) && authActionMessage == old(authActionMessage)
      ensures dashboardData == old(dashboardData) && loadingMetrics == old(loadingMetrics)
    {
      if storedUserId.Some? && storedUserId.value != "" && storedToken.Some? && storedToken.value != "" {
        userId := storedUserId.value;
        accessToken := storedToken.value;
        redirect := None;
      } else {
        redirect := Some(LoginPage);
      }
    }

    /** `openModal(action, productId)`. */
    method Open(action: string, productId: ProductId)
      modifies this
      ensures modalState == OpenModal(old(modalState), products, action, productId)
      ensures products == old(products) && authActionMessage == old(authActionMessage)
      ensures userId == old(userId) && accessToken == old(accessToken)
      ensures dashboardData == old(dashboardData) && loadingMetrics == old(loadingMetrics)
    {
      if action == "logout" {
        modalState := LogoutModal;
      } else if action == "deactivate" {
        modalState := DeactivateModal;
      } else if action == "deleteProduct" && productId != "" {
        var productToDelete := FindProduct(products, productId);
        var productName := if productToDelete.Some? then productToDelete.value.name else "este produto";
        modalState := ModalState(true, DeleteProductAction, "Excluir Produto", DeleteMessage(productName),
                                 "Excluir", true, productId);
      }
    }

    /** `fetchMetrics`: nothing without a token; an ok reply with a
        `productsBySeller` list installs the metrics; every failure (the
        `TypeError` of a missing list included) sets the load error. */
    method FetchMetrics(reply: Reply<MetricsData>, capturedProducts: nat, typeError: string)
      modifies this
      ensures old(accessToken) == "" ==> dashboardData == old(dashboardData) && authActionMessage == old(authActionMessage)
      ensures old(accessToken) != "" && reply.Ok() && reply.body.Parsed? && reply.body.value.productsBySeller.Some? ==>
                dashboardData == Metrics(reply.body.value, capturedProducts) &&
                authActionMessage == old(authActionMessage)
      ensures old(accessToken) != "" && !reply.Ok() ==>
                dashboardData == old(dashboardData) &&
                authActionMessage == LoadErrorMessage(if reply.NetworkFailure? then reply.reason else LoadFailure)
      ensures old(accessToken) != "" && reply.Ok() && reply.body.Unparsable? ==>
                dashboardData == old(dashboardData) && authActionMessage == LoadErrorMessage(reply.body.reason)
      ensures old(accessToken) != "" && reply.Ok() && reply.body.Parsed? && reply.body.value.productsBySeller.None? ==>
                dashboardData == old(dashboardData) && authActionMessage == LoadErrorMessage(typeError)
      ensures products == old(products) && modalState == old(modalState) && loadingMetrics == old(loadingMetrics)
      ensures userId == old(userId) && accessToken == old(accessToken)
    {
      if accessToken == "" {
        return;
      }
      match reply {
        case NetworkFailure(reason) =>
          authActionMessage := LoadErrorMessage(reason);
        case Response(status, _, body) =>
          if !IsOk(status) {
            authActionMessage := LoadErrorMessage(LoadFailure);
          } else {
            match body {
              case Unparsable(reason) =>
                authActionMessage := LoadErrorMessage(reason);
              case Parsed(data) =>
                if data.productsBySeller.None? {
                  authActionMessage := LoadErrorMessage(typeError);
                } else {
                  dashboardData := Metrics(data, capturedProducts);
                }
            }
          }
      }
    }

    /** `fetchDashboardData`: an ok reply with a non-null list installs the
        seller's products; a failure sets the load error and keeps them. */
    method FetchDashboardData(reply: Reply<Option<seq<Product>>>)
      modifies this
      ensures !loadingMetrics
      ensures reply.Ok() && reply.body.Parsed? ==>
                authActionMessage == old(authActionMessage) &&
                products == (if reply.body.value.Some? then reply.body.value.value else old(products))
      ensures !reply.Ok() ==>
                products == old(products) &&
                authActionMessage == LoadErrorMessage(if reply.NetworkFailure? then reply.reason else LoadFailure)
      ensures reply.Ok() && reply.body.Unparsable? ==>
                products == old(products) && authActionMessage == LoadErrorMessage(reply.body.reason)
      ensures dashboardData == old(dashboardData) && modalState == old(modalState)
      ensures userId == old(userId) && accessToken == old(accessToken)
    {
      loadingMetrics := true;
      match reply {
        case NetworkFailure(reason) =>
          authActionMessage := LoadErrorMessage(reason);
        case Response(status, _, body) =>
          if !IsOk(status) {
            authActionMessage := LoadErrorMessage(LoadFailure);
          } else {
            match body {
              case Unparsable(reason) =>
                authActionMessage := LoadErrorMessage(reason);
              case Parsed(data) =>
                if data.Some? {
                  products := data.value;
                }
            }
          }
      }
      loadingMetrics := false;
    }

    /** `handleConfirmDeleteProduct(productId)`: closes the modal; a 204
        removes exactly the products with that id, keeping the others in
        order; a 403, any other status or a network error keeps the list and
        reports why. */
    method ConfirmDeleteProduct(productId: ProductId, reply: Reply<Fields>)
      modifies this
      ensures modalState == ClosedModal
      ensures reply.HasStatus(204) ==>
                products == WithoutProduct(old(products), productId) && authActionMessage == DeleteSuccess
      ensures !reply.HasStatus(204) ==> products == old(products)
      ensures reply.HasStatus(403) ==> authActionMessage == "Erro ao excluir produto: " + ForbiddenDelete
      ensures reply.Response? && reply.status != 204 && reply.status != 403 ==>
                authActionMessage == "Erro ao excluir produto: Falha ao excluir produto. Status: " +
                                     NatToString(reply.status)
      ensures reply.NetworkFailure? ==> authActionMessage == "Erro ao excluir produto: " + reply.reason
      ensures authActionMessage == DeleteOutcome(reply)
      ensures dashboardData == old(dashboardData) && userId == old(userId) && accessToken == old(accessToken)
      ensures loadingMetrics == old(loadingMetrics)
    {
      modalState := ClosedModal;
      authActionMessage := "Excluindo produto...";
      match reply {
        case NetworkFailure(reason) =>
          authActionMessage := "Erro ao excluir produto: " + reason;
        case Response(status, _, _) =>
          if status == 204 {
            authActionMessage := DeleteSuccess;
            products := WithoutProduct(products, productId);
          } else if status == 403 {
            authActionMessage := "Erro ao excluir produto: " + ForbiddenDelete;
          } else {
            authActionMessage := "Erro ao excluir produto: Falha ao excluir produto. Status: " + NatToString(status);
          }
      }
    }

    /** `handleLogout`: whatever the server answers, the session ends: the
        token and user id are cleared and the page goes to the login page. */
    method Logout(reply: Reply<Fields>) returns (redirect: string)
      modifies this
      ensures userId == "" && accessToken == "" && redirect == LoginPage
      ensures authActionMessage == LogoutDone && modalState == ClosedModal
      ensures products == old(products) && dashboardData == old(dashboardData) && loadingMetrics == old(loadingMetrics)
    {
      modalState := ClosedModal;
      authActionMessage := "Desconectando...";
      authActionMessage := LogoutDone;
      userId := "";
      accessToken := "";
      redirect := LoginPage;
    }

    /** `handleDeactivate`: the message tells whether the server deactivated
        the account; either way the session is cleared and the page goes to
        the login page. */
    method Deactivate(reply: Reply<Fields>) returns (redirect: string)
      modifies this
      ensures userId == "" && accessToken == "" && redirect == LoginPage && modalState == ClosedModal
      ensures reply.Ok() ==> authActionMessage == DeactivateDone
      ensures !reply.Ok() ==>
                authActionMessage == "Erro na Desativação: " +
                                     (if reply.NetworkFailure? then reply.reason else DeactivateFailure)
      ensures authActionMessage == DeactivateOutcome(reply)
      ensures products == old(products) && dashboardData == old(dashboardData) && loadingMetrics == old(loadingMetrics)
    {
      modalState := ClosedModal;
      authActionMessage := "Desativando conta...";
      match reply {
        case NetworkFailure(reason) =>
          authActionMessage := "Erro na Desativação: " + reason;
        case Response(status, _, _) =>
          if !IsOk(status) {
            authActionMessage := "Erro na Desativação: " + DeactivateFailure;
          } else {
            authActionMessage := DeactivateDone;
          }
      }
      userId := "";
      accessToken := "";
      redirect := LoginPage;
    }

    /** `handleModalConfirm`: runs the handler `ConfirmDispatch` picks, with
        the reply that handler's request receives; `None` when nothing runs. */
    method ModalConfirm(logoutReply: Reply<Fields>, deactivateReply: Reply<Fields>, deleteReply: Reply<Fields>)
      returns (redirect: Option<string>)
      modifies this
      ensures var d := ConfirmDispatch(old(modalState));
              (d.RunLogout? || d.RunDeactivate? ==>
                 redirect == Some(LoginPage) && userId == "" && accessToken == "" &&
                 products == old(products) && dashboardData == old(dashboardData)) &&
              (d.RunLogout? ==> authActionMessage == LogoutDone) &&
              (d.RunDeactivate? ==> authActionMessage == DeactivateOutcome(deactivateReply)) &&
              (d.RunDelete? ==>
                 redirect == None &&
                 products == (if deleteReply.HasStatus(204) then WithoutProduct(old(products), d.productId)
                              else old(products)) &&
                 authActionMessage == DeleteOutcome(deleteReply) &&
                 dashboardData == old(dashboardData) && userId == old(userId) && accessToken == old(accessToken)) &&
              (d.Nothing? ==>
                 redirect == None && products == old(products) && modalState == old(modalState) &&
                 authActionMessage == old(authActionMessage) && userId == old(userId) &&
                 accessToken == old(accessToken) && dashboardData == old(dashboardData))
      ensures !ConfirmDispatch(old(modalState)).Nothing? ==> modalState == ClosedModal
      ensures loadingMetrics == old(loadingMetrics)
    {
      match ConfirmDispatch(modalState) {
        case RunLogout =>
          var to := Logout(logoutReply);
          redirect := Some(to);
        case RunDeactivate =>
          var to := Deactivate(deactivateReply);
          redirect := Some(to);
        case RunDelete(productId) =>
          ConfirmDeleteProduct(productId, deleteReply);
          redirect := None;
        case Nothing =>
          redirect := None;
      }
    }
  }
}
