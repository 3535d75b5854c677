/** The registration page: `handleRegistration`, with its password-length
    guard, the `is_seller` flag it sends, and the message, form reset and
    redirect each reply leads to. */
module Register {
  import opened Common
  import opened JsBuiltins

  const MinPasswordLength := 6
  const ShortPasswordMessage := "A senha deve ter no mínimo 6 caracteres."
  const SuccessFallback := "Registro realizado com sucesso!"
  const FailureFallback := "Falha no registro. Tente novamente."
  const ConnectionMessage := "Erro de conexão com o servidor. Tente novamente mais tarde."
  const SellerHome := "/sellerDashboard"
  const CustomerHome := "/customerDashboard"

  /** The JSON body of `POST /api/users/register`. */
  datatype RegisterRequest = RegisterRequest(email: string, password: string, name: string, isSeller: bool)

  /** The page a successful registration opens: the seller dashboard for a
      seller, the customer dashboard for every other role. */
  function HomeFor(role: string): (r: string)
    ensures r == SellerHome <==> role == "seller"
    ensures r == SellerHome || r == CustomerHome
  {
    if role == "seller" then SellerHome else CustomerHome
  }

  class RegisterPage {
    var email: string
    var password: string
    var name: string
    var role: string
    var loading: bool
    var message: string
    var isError: bool

    constructor ()
      ensures email == "" && password == "" && name == "" && role == "client"
      ensures !loading && message == "" && !isError
    {
      email := "";
      password := "";
      name := "";
      role := "client";
      loading := false;
      message := "";
      isError := false;
    }

    /** `handleRegistration`: a password shorter than six UTF-16 units is
        refused without a request; otherwise the request carries
        `is_seller = (role === 'seller')` and the name the handler captured
        (`capturedName`: the callback is rebuilt only when email, password or
        role change, so it may send an older name); an ok reply shows the server's
        message (or the default), resets email, password and role and
        redirects by the submitted role; a refusal shows the server's
        message (or the default) as an error; a network error or a body
        that is not JSON shows the connection error. Loading always ends. */
    method HandleRegistration(capturedName: string, reply: Reply<Fields>)
      returns (sent: Option<RegisterRequest>, redirect: Option<string>)
      modifies this
      ensures !loading && name == old(name)
      ensures message != "" && (isError <==> redirect.None?)
      ensures sent.None? <==> Utf16Length(old(password)) < MinPasswordLength
      ensures sent.None? ==>
                message == ShortPasswordMessage && isError && redirect == None &&
                email == old(email) && password == old(password) && role == old(role)
      ensures sent.Some? ==>
                sent.value == RegisterRequest(old(email), old(password), capturedName, old(role) == "seller")
      ensures sent.Some? && reply.Ok() && reply.body.Parsed? ==>
                message == OrElse(reply.body.value.message, SuccessFallback) && !isError &&
                email == "" && password == "" && role == "client" && redirect == Some(HomeFor(old(role)))
      ensures sent.Some? && reply.Response? && !IsOk(reply.status) && reply.body.Parsed? ==>
                message == OrElse(reply.body.value.message, FailureFallback) && isError && redirect == None &&
                email == old(email) && password == old(password) && role == old(role)
      ensures sent.Some? && (reply.NetworkFailure? || reply.body.Unparsable?) ==>
                message == ConnectionMessage && isError && redirect == None &&
                email == old(email) && password == old(password) && role == old(role)
    {
      message := "";
      isError := false;
      loading := true;
      redirect := None;
      if Utf16Length(password) < MinPasswordLength {
        message := ShortPasswordMessage;
        isError := true;
        loading := false;
        return None, None;
      }
      var isSeller := role == "seller";
      sent := Some(RegisterRequest(email, password, capturedName, isSeller));
      match reply {
        case NetworkFailure(_) =>
          message := ConnectionMessage;
          isError := true;
        case Response(status, _, body) =>
          match body {
            case Unparsable(_) =>
              message := ConnectionMessage;
              isError := true;
            case Parsed(responseData) =>
              if IsOk(status) {
                message := OrElse(responseData.message, SuccessFallback);
                email := "";
                password := "";
                var submittedRole := role;
                role := "client";
                redirect := Some(HomeFor(submittedRole));
              } else {
                message := OrElse(responseData.message, FailureFallback);
                isError := true;
              }
          }
      }
      loading := false;
    }
  }
}
