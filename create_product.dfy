/** The product-creation page: the manual form submit and the CSV upload,
    each with its token guard, the message its reply leads to, and the
    dashboard refresh that follows a request. */
module CreateProduct {
  import opened Common
  import opened JsBuiltins

  /** The form's `stock` field: the text the input holds, or the number 0
      the reset installs. */
  datatype Stock = StockText(text: string) | StockNumber(n: int)

  /** `newProduct`: every field as the form holds it. */
  datatype ProductForm = ProductForm(name: string, price: string, description: string, image: string, stock: Stock)

  /** The form as the page first shows it. */
  const InitialForm := ProductForm("", "", "", "", StockText(""))

  /** The form after a product was created: `stock` becomes the number 0. */
  const ResetForm := ProductForm("", "", "", "", StockNumber(0))

  const UnauthorizedMessage := "Erro: Não autorizado. Por favor, faça login novamente."
  const ManualSuccess := "Sucesso: Produto cadastrado com sucesso!"
  const ManualFallback := "Falha desconhecida. Verifique o console ou o servidor."
  const CsvLoading := "Carregando arquivo CSV..."
  const MissingFileMessage := "Erro: Por favor, selecione um arquivo CSV para upload."
  /** The success text, with the stray quote the page shows. */
  const CsvSuccess := "Sucesso: Produtos carregados com sucesso!'"
  const ExpiredTokenMessage := "Não autorizado. Seu token pode ter expirado. Faça login novamente."
  const MissingRouteMessage := "A rota de upload do CSV não foi encontrada no servidor."

  /** The detail of a refused manual submit: the body's `message`, the
      status text when the body is not JSON, or the fallback. */
  function ManualDetail(statusText: string, body: Body<Fields>): (r: string)
    ensures r != ""
    ensures body.Parsed? && body.value.message.Some? && body.value.message.value != "" ==>
              r == body.value.message.value
    ensures body.Unparsable? && statusText != "" ==> r == statusText
    ensures (body.Parsed? && (body.value.message.None? || body.value.message.value == "")) ||
            (body.Unparsable? && statusText == "") ==>
              r == ManualFallback
  {
    match body
    case Parsed(errorData) => OrElse(errorData.message, ManualFallback)
    case Unparsable(_) => OrElse(Some(statusText), ManualFallback)
  }

  /** Whether the `content-type` header announces JSON. */
  predicate AnnouncesJson(contentType: Option<string>) {
    contentType.Some? && contentType.value != "" && Includes(contentType.value, "application/json")
  }

  /** The message of a malformed JSON error body. */
  function MalformedJson(status: Status): string {
    "Erro " + NatToString(status) + ": O servidor retornou JSON, mas está mal formatado."
  }

  /** The first guess at the error: status and status text. */
  function StatusError(status: Status, statusText: string): string {
    "Erro " + NatToString(status) + ": " + statusText + "."
  }

  /** The message for another non-ok reply without a JSON body. */
  function UnexpectedBody(status: Status, statusText: string): string {
    "Erro " + NatToString(status) + " (" + statusText + "). O servidor retornou um corpo inesperado."
  }

  /** The `errorMessage` the upload handler settles on, one reassignment per
      branch: a JSON content type wins, with the body's `message` (a
      malformed body yields its own message) or the status line; otherwise
      401, then 404, then any other non-ok status; an ok reply without JSON
      keeps the status line. */
  method UploadErrorMessage(status: Status, statusText: string, contentType: Option<string>, body: Body<Fields>)
    returns (errorMessage: string)
    ensures errorMessage != ""
    ensures AnnouncesJson(contentType) && body.Parsed? ==>
              errorMessage == OrElse(body.value.message, StatusError(status, statusText))
    ensures AnnouncesJson(contentType) && body.Unparsable? ==> errorMessage == MalformedJson(status)
    ensures !AnnouncesJson(contentType) && status == 401 ==> errorMessage == ExpiredTokenMessage
    ensures !AnnouncesJson(contentType) && status == 404 ==> errorMessage == MissingRouteMessage
    ensures !AnnouncesJson(contentType) && status != 401 && status != 404 && !IsOk(status) ==>
              errorMessage == UnexpectedBody(status, statusText)
    ensures !AnnouncesJson(contentType) && IsOk(status) ==> errorMessage == StatusError(status, statusText)
  {
    errorMessage := StatusError(status, statusText);
    if AnnouncesJson(contentType) {
      var responseMessage: Option<string>;
      match body {
        case Parsed(responseData) =>
          responseMessage := responseData.message;
        case Unparsable(_) =>
          responseMessage := Some(MalformedJson(status));
      }
      errorMessage := OrElse(responseMessage, errorMessage);
    } else if status == 401 {
      errorMessage := ExpiredTokenMessage;
    } else if status == 404 {
      errorMessage := MissingRouteMessage;
    } else if !IsOk(status) {
      errorMessage := UnexpectedBody(status, statusText);
    }
  }

  class CreateProductPage {
    var newProduct: ProductForm
    var csvFile: Option<string>
    var csvUploadMessage: string
    var manualMessage: string

    constructor ()
      ensures newProduct == InitialForm && csvFile == None && csvUploadMessage == "" && manualMessage == ""
    {
      newProduct := InitialForm;
      csvFile := None;
      csvUploadMessage := "";
      manualMessage := "";
    }

    /** `handleManualSubmit`: without a token it only reports the missing
        authorization; otherwise the form is sent; an ok reply confirms and
        resets the form, a refusal reports the detail; the dashboard refresh
        follows when the page was given one. A request that never completes
        rejects the handler before any of that. */
    method HandleManualSubmit(hasToken: bool, reply: Reply<Fields>, canRefresh: bool)
      returns (sent: Option<ProductForm>, refreshed: bool)
      modifies this
      ensures sent.Some? <==> hasToken
      ensures sent.Some? ==> sent.value == old(newProduct)
      ensures !hasToken ==> manualMessage == UnauthorizedMessage && newProduct == old(newProduct) && !refreshed
      ensures hasToken && reply.NetworkFailure? ==>
                manualMessage == old(manualMessage) && newProduct == old(newProduct) && !refreshed
      ensures hasToken && reply.Ok() ==> manualMessage == ManualSuccess && newProduct == ResetForm
      ensures hasToken && reply.Response? && !IsOk(reply.status) ==>
                manualMessage == "Erro: Falha ao cadastrar o produto. Detalhe: " +
                                 ManualDetail(reply.statusText, reply.body) &&
                newProduct == old(newProduct)
      ensures hasToken && reply.Response? ==> refreshed == canRefresh
      ensures csvFile == old(csvFile) && csvUploadMessage == old(csvUploadMessage)
    {
      refreshed := false;
      if !hasToken {
        manualMessage := UnauthorizedMessage;
        return None, false;
      }
      sent := Some(newProduct);
      match reply {
        case NetworkFailure(_) =>
          return;
        case Response(status, statusText, body) =>
          if IsOk(status) {
            manualMessage := ManualSuccess;
            newProduct := ResetForm;
          } else {
            manualMessage := "Erro: Falha ao cadastrar o produto. Detalhe: " + ManualDetail(statusText, body);
          }
      }
      if canRefresh {
        refreshed := true;
      }
    }

    /** `handleCsvUpload`: the token is checked before the file and each
        missing one has its own message and sends nothing; otherwise the file
        is sent, an ok reply confirms and clears the file, a refusal reports
        `UploadErrorMessage`, a request that never completes reports the
        connection error; after a request the dashboard refresh follows when
        the page was given one. */
    method HandleCsvUpload(hasToken: bool, reply: Reply<Fields>, contentType: Option<string>, canRefresh: bool)
      returns (sent: Option<string>, refreshed: bool)
      modifies this
      ensures sent.Some? <==> hasToken && old(csvFile).Some?
      ensures sent.Some? ==> sent == old(csvFile)
      ensures !hasToken ==> csvUploadMessage == UnauthorizedMessage && csvFile == old(csvFile) && !refreshed
      ensures hasToken && old(csvFile).None? ==>
                csvUploadMessage == MissingFileMessage && csvFile == old(csvFile) && !refreshed
      ensures sent.Some? ==> refreshed == canRefresh
      ensures sent.Some? && reply.Ok() ==> csvUploadMessage == CsvSuccess && csvFile == None
      ensures sent.Some? && reply.Response? && !IsOk(reply.status) ==> csvFile == old(csvFile)
      ensures var refused := sent.Some? && reply.Response? && !IsOk(reply.status);
              var json := AnnouncesJson(contentType);
              (refused && json && reply.body.Parsed? ==>
                 csvUploadMessage == "Erro: Falha no upload: " +
                                     OrElse(reply.body.value.message, StatusError(reply.status, reply.statusText))) &&
              (refused && json && reply.body.Unparsable? ==>
                 csvUploadMessage == "Erro: Falha no upload: " + MalformedJson(reply.status)) &&
              (refused && !json && reply.status == 401 ==>
                 csvUploadMessage == "Erro: Falha no upload: " + ExpiredTokenMessage) &&
              (refused && !json && reply.status == 404 ==>
                 csvUploadMessage == "Erro: Falha no upload: " + MissingRouteMessage) &&
              (refused && !json && reply.status != 401 && reply.status != 404 ==>
                 csvUploadMessage == "Erro: Falha no upload: " + UnexpectedBody(reply.status, reply.statusText))
      ensures sent.Some? && reply.NetworkFailure? ==>
                csvFile == old(csvFile) &&
                csvUploadMessage == "Erro de conexão: " + reply.reason + ". Tente novamente."
      ensures newProduct == old(newProduct) && manualMessage == old(manualMessage)
    {
      csvUploadMessage := CsvLoading;
      refreshed := false;
      if !hasToken {
        csvUploadMessage := UnauthorizedMessage;
        return None, false;
      }
      if csvFile.None? {
        csvUploadMessage := MissingFileMessage;
        return None, false;
      }
      sent := csvFile;
      match reply {
        case NetworkFailure(reason) =>
          csvUploadMessage := "Erro de conexão: " + reason + ". Tente novamente.";
        case Response(status, statusText, body) =>
          var errorMessage := UploadErrorMessage(status, statusText, contentType, body);
          if IsOk(status) {
            csvUploadMessage := CsvSuccess;
            csvFile := None;
          } else {
            csvUploadMessage := "Erro: Falha no upload: " + errorMessage;
          }
      }
      if canRefresh {
        refreshed := true;
      }
    }
  }
}
