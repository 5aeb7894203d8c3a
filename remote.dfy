/**
 * What the Android client receives from the network, as plain inputs: the
 * outcome of one Retrofit call and the response bodies the screens read.
 * The bodies' Kotlin classes live in the `remote` package, which is not part
 * of this model; only the fields the screens use are kept.
 */
module Remote {
  import opened Wrappers

  /**
   * One Retrofit call: a 2xx response (`isSuccessful`) with its possibly null
   * `body()`, a non-2xx response with its status `code()` and possibly null
   * `errorBody()`, or an exception with its possibly null `message`.
   */
  datatype Reply<T> =
    | HttpOk(body: Option<T>)
    | HttpError(code: int, errorBody: Option<string>)
    | Threw(message: Option<string>)
  {
    /** `response.isSuccessful && response.body() != null` */
    predicate HasBody() {
      HttpOk? && body.Some?
    }
  }

  /** Kotlin's `Result<T>` as the repositories return it: the value, or the exception's possibly null message. */
  datatype Outcome<T> = Succeeded(value: T) | Failed(message: Option<string>)

  /** Body of the check-in endpoint: `sessao_id` and `horario_entrada`. */
  datatype CheckInResponse = CheckInResponse(sessaoId: int, horarioEntrada: string)

  /** Body of the checkout endpoint; `valor_pago` in whole currency units. */
  datatype CheckoutResponse = CheckoutResponse(valorPago: int)

  /** One card as the card endpoints list it. */
  datatype CartaoResponse = CartaoResponse(id: int, numero: string, nome: string, validade: string)

  /** `active_session_info` of the login response. */
  datatype ActiveSessionInfo = ActiveSessionInfo(sessaoId: int, horarioEntrada: string)

  /** Body of the login endpoint. */
  datatype LoginResponse = LoginResponse(
    accessToken: string,
    tokenType: string,
    userId: int,
    userName: string,
    cardCount: int,
    activeSessionInfo: Option<ActiveSessionInfo>)
}

/** What a screen does to the outside world, in the order it does it. */
module Ui {
  import opened Wrappers

  datatype Effect =
    | Toast(text: string)
      /** The checkout toast `"Pagamento de R$ %.2f efetuado com sucesso!"` for this amount. */
    | PaymentToast(valorPago: int)
    | Navigate(route: string)
    | PopBack
      /** A request to the named API call, with its Authorization header and JSON fields. */
    | Request(call: string, authorization: Option<string>, fields: seq<(string, string)>)
    | SaveAuthToken(token: string)
    | SaveUserData(userId: int, userName: Option<string>)
      /** The `onComplete` callback the caller passed in. */
    | Completed

  function Bearer(token: string): string {
    "Bearer " + token
  }
}
