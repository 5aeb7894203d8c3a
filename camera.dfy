/**
 * `CameraScreen`: the QR scanner for the barrier. In mode "checkin" or
 * "checkout" a scanned value equal to the mode, ignoring case, triggers the
 * matching API call; anything else is reported and the screen pops back. The
 * completion callback runs exactly once on every path, and clears the
 * screen's loading flag.
 *
 * The effects a scan has on the world (toasts, navigation, requests, the
 * callback) are listed in order, as `Effect`s; the saved token and the
 * server's replies are inputs.
 */
module Camera {
  import opened Wrappers
  import opened Text
  import opened Remote
  import opened Ui

  const ModoCheckIn: string := "checkin"
  const ModoCheckOut: string := "checkout"

  const ModoInvalido: string := "Modo de scanner inválido."
  const QrInvalido: string := "QR Code inválido."
  const CheckInDetectado: string := "QR Code de Check-in detectado!"
  const CheckInRealizado: string := "Check-in realizado!"
  const ErroCheckIn: string := "Erro no check-in"
  const FalhaConexao: string := "Falha na conexão."
  const Confirmando: string := "Confirmando pagamento e finalizando sessão..."
  const SessaoExpirada: string := "Sessão expirada. Faça login."
  const ErroCheckout: string := "Erro ao fazer checkout"
  const FalhaServidor: string := "Falha na conexão com o servidor."

  /** The completion callback runs last, and only there. */
  predicate CompletaUmaVez(fx: seq<Effect>) {
    |fx| >= 1 && fx[|fx| - 1] == Completed && forall i :: 0 <= i < |fx| - 1 ==> fx[i] != Completed
  }

  predicate FazRequisicao(fx: seq<Effect>) {
    exists i :: 0 <= i < |fx| && fx[i].Request?
  }

  /** What the UI does with the answer to `registrarCheckIn`. */
  function RespostaCheckIn(reply: Reply<CheckInResponse>): (fx: seq<Effect>)
    ensures |fx| == 2 && fx[0].Toast? && !fx[1].Request? && fx[1] != Completed
    ensures fx[1].Navigate? <==> reply.HasBody()
    ensures reply.HasBody() ==> fx[1] == Navigate("estacionamento_ativo/" + reply.body.value.horarioEntrada)
  {
    match reply
    case HttpOk(Some(b)) => [Toast(CheckInRealizado), Navigate("estacionamento_ativo/" + b.horarioEntrada)]
    case HttpOk(None) => [Toast("Erro: " + ErroCheckIn), PopBack]
    case HttpError(_, eb) => [Toast("Erro: " + eb.OrElse(ErroCheckIn)), PopBack]
    case Threw(_) => [Toast(FalhaConexao), PopBack]
  }

  /** What the UI does with the answer to `registrarCheckout`. */
  function RespostaCheckOut(reply: Reply<CheckoutResponse>): (fx: seq<Effect>)
    ensures |fx| == 2 && !fx[1].Request? && fx[1] != Completed
    ensures fx[0].PaymentToast? <==> reply.HasBody()
    ensures reply.HasBody() ==> fx == [PaymentToast(reply.body.value.valorPago), Navigate("home")]
    ensures !reply.HasBody() ==> fx[1] == PopBack
  {
    match reply
    case HttpOk(Some(b)) => [PaymentToast(b.valorPago), Navigate("home")]
    case HttpOk(None) => [Toast("Erro: " + ErroCheckout), PopBack]
    case HttpError(_, eb) => [Toast("Erro: " + eb.OrElse(ErroCheckout)), PopBack]
    case Threw(_) => [Toast(FalhaServidor), PopBack]
  }

  /** `handleCheckIn` */
  function HandleCheckIn(valor: string, token: Option<string>, reply: Reply<CheckInResponse>): (fx: seq<Effect>)
    ensures CompletaUmaVez(fx)
    ensures !EqualsIgnoreCase(valor, ModoCheckIn) ==> fx == [Toast(QrInvalido), PopBack, Completed]
    ensures EqualsIgnoreCase(valor, ModoCheckIn) && token.None? ==> fx == [Toast(CheckInDetectado), Completed]
    ensures EqualsIgnoreCase(valor, ModoCheckIn) && token.Some? ==>
      |fx| == 5 && fx[0] == Toast(CheckInDetectado) && fx[1] == Request("registrarCheckIn", Some(Bearer(token.value)), [("cancela_id", valor)])
    ensures EqualsIgnoreCase(valor, ModoCheckIn) && token.Some? ==> fx[2..4] == RespostaCheckIn(reply)
  {
    if !EqualsIgnoreCase(valor, ModoCheckIn) then [Toast(QrInvalido), PopBack, Completed]
    else if token.None? then [Toast(CheckInDetectado), Completed]
    else
      [Toast(CheckInDetectado), Request("registrarCheckIn", Some(Bearer(token.value)), [("cancela_id", valor)])]
      + RespostaCheckIn(reply) + [Completed]
  }

  /** `handleCheckOut` */
  function HandleCheckOut(valor: string, token: Option<string>, reply: Reply<CheckoutResponse>): (fx: seq<Effect>)
    ensures CompletaUmaVez(fx)
    ensures !EqualsIgnoreCase(valor, ModoCheckOut) ==> fx == [Toast(QrInvalido), PopBack, Completed]
    ensures EqualsIgnoreCase(valor, ModoCheckOut) && token.None? ==>
      fx == [Toast(Confirmando), Toast(SessaoExpirada), Navigate("login"), Completed]
    ensures EqualsIgnoreCase(valor, ModoCheckOut) && token.Some? ==>
      |fx| == 5 && fx[0] == Toast(Confirmando) && fx[1] == Request("registrarCheckout", Some(Bearer(token.value)), [])
    ensures EqualsIgnoreCase(valor, ModoCheckOut) && token.Some? ==> fx[2..4] == RespostaCheckOut(reply)
  {
    if !EqualsIgnoreCase(valor, ModoCheckOut) then [Toast(QrInvalido), PopBack, Completed]
    else if token.None? then [Toast(Confirmando), Toast(SessaoExpirada), Navigate("login"), Completed]
    else
      [Toast(Confirmando), Request("registrarCheckout", Some(Bearer(token.value)), [])]
      + RespostaCheckOut(reply) + [Completed]
  }

  /** `handleScan`: the mode is matched exactly; the value ignoring case. */
  function HandleScan(valor: string, modo: string, token: Option<string>,
                      checkIn: Reply<CheckInResponse>, checkOut: Reply<CheckoutResponse>): (fx: seq<Effect>)
    ensures CompletaUmaVez(fx)
    ensures modo != ModoCheckIn && modo != ModoCheckOut ==> fx == [Toast(ModoInvalido), PopBack, Completed]
  {
    if modo == ModoCheckIn then HandleCheckIn(valor, token, checkIn)
    else if modo == ModoCheckOut then HandleCheckOut(valor, token, checkOut)
    else [Toast(ModoInvalido), PopBack, Completed]
  }

  /** A request goes out exactly when the mode is known, the value names it, and a token is saved. */
  lemma RequisitaSoQuandoValido(valor: string, modo: string, token: Option<string>,
                                checkIn: Reply<CheckInResponse>, checkOut: Reply<CheckoutResponse>)
    ensures FazRequisicao(HandleScan(valor, modo, token, checkIn, checkOut)) <==>
      (modo == ModoCheckIn || modo == ModoCheckOut) && EqualsIgnoreCase(valor, modo) && token.Some?
  {
    var fx := HandleScan(valor, modo, token, checkIn, checkOut);
    if (modo == ModoCheckIn || modo == ModoCheckOut) && EqualsIgnoreCase(valor, modo) && token.Some? {
      assert fx[1].Request?;
    } else if modo == ModoCheckIn && EqualsIgnoreCase(valor, modo) {
      assert fx == [Toast(CheckInDetectado), Completed];
    } else if modo == ModoCheckOut && EqualsIgnoreCase(valor, modo) {
      assert fx == [Toast(Confirmando), Toast(SessaoExpirada), Navigate("login"), Completed];
    } else {
      assert fx == [Toast(QrInvalido), PopBack, Completed] || fx == [Toast(ModoInvalido), PopBack, Completed];
    }
  }

  /** The check-in scan reaches the active-session screen exactly when the server answers with a session. */
  lemma CheckInNavegaSoComSessao(valor: string, token: string, reply: Reply<CheckInResponse>)
    requires EqualsIgnoreCase(valor, ModoCheckIn)
    ensures var fx := HandleScan(valor, ModoCheckIn, Some(token), reply, Threw(None));
      && |fx| == 5
      && (fx[3].Navigate? <==> reply.HasBody())
      && (reply.HasBody() ==> fx[3] == Navigate("estacionamento_ativo/" + reply.body.value.horarioEntrada))
  {
  }

  /**
   * A valid checkout scan shows the amount paid and goes home exactly when the
   * server answers with a receipt; otherwise it reports and pops back.
   */
  lemma CheckOutPagoVaiParaHome(valor: string, token: string, reply: Reply<CheckoutResponse>)
    requires EqualsIgnoreCase(valor, ModoCheckOut)
    ensures var fx := HandleScan(valor, ModoCheckOut, Some(token), Threw(None), reply);
      && |fx| == 5
      && (fx[2].PaymentToast? <==> reply.HasBody())
      && (reply.HasBody() ==> fx[2] == PaymentToast(reply.body.value.valorPago) && fx[3] == Navigate("home"))
      && (!reply.HasBody() ==> fx[3] == PopBack)
  {
  }

  /** The value check ignores case: it is equality after lower-casing. */
  lemma ValorIgnoraCaixa(valor: string, modo: string)
    ensures EqualsIgnoreCase(valor, modo) <==> Lowercase(valor) == Lowercase(modo)
  {
    EqualsIgnoreCaseIsLowercaseEquality(valor, modo);
  }

  /** Scans differing from the mode only in case pass; a differently spelled one does not. */
  lemma ValorIgnoraCaixaExemplos()
    ensures EqualsIgnoreCase("CheckIn", ModoCheckIn) && EqualsIgnoreCase("CHECKOUT", ModoCheckOut)
    ensures !EqualsIgnoreCase("check-in", ModoCheckIn)
  {
    assert !CharEqualsIgnoreCase('-', 'i');
    assert !CharEqualsIgnoreCase("check-in"[5], ModoCheckIn[5]);
  }

  /** The value the simulation button scans. */
  function ValorSimulado(modo: string): string {
    if modo == ModoCheckOut then ModoCheckOut else ModoCheckIn
  }

  /** In either known mode the simulated value passes the check, so the simulation always reaches the API call. */
  lemma SimulacaoPassa(modo: string, token: string,
                       checkIn: Reply<CheckInResponse>, checkOut: Reply<CheckoutResponse>)
    requires modo == ModoCheckIn || modo == ModoCheckOut
    ensures EqualsIgnoreCase(ValorSimulado(modo), modo)
    ensures FazRequisicao(HandleScan(ValorSimulado(modo), modo, Some(token), checkIn, checkOut))
  {
    RequisitaSoQuandoValido(ValorSimulado(modo), modo, Some(token), checkIn, checkOut);
  }

  /**
   * The loading flag after a detection, as the callback is written: the flag
   * is raised first, and only a detection that carries a raw value gets a
   * completion callback to lower it again.
   */
  function CarregandoAposDeteccao(carregando: bool, valor: Option<string>): (r: bool)
    ensures carregando ==> r
    ensures !carregando ==> (r <==> valor.None?)
  {
    if carregando then true else valor.None?
  }

  /** A detection without a raw value leaves the scanner loading for good: every later detection is ignored. */
  lemma DeteccaoSemValorTrava(depois: seq<Option<string>>)
    ensures CarregandoAposDeteccao(false, None)
    ensures forall k :: 0 <= k < |depois| ==> CarregandoAposDeteccao(true, depois[k])
  {
  }

  class CameraScreen {
    const scanMode: string
    var isLoading: bool
    /** Everything the screen has done, in order. */
    var efeitos: seq<Effect>

    constructor (scanMode: string)
      ensures this.scanMode == scanMode && !isLoading && efeitos == []
    {
      this.scanMode := scanMode;
      isLoading, efeitos := false, [];
    }

    /** Runs `handleScan` and lets its completion callback clear the loading flag. */
    method Processar(valor: string, token: Option<string>,
                     checkIn: Reply<CheckInResponse>, checkOut: Reply<CheckoutResponse>)
      requires isLoading
      modifies this
      ensures efeitos == old(efeitos) + HandleScan(valor, scanMode, token, checkIn, checkOut)
      ensures !isLoading
    {
      var fx := HandleScan(valor, scanMode, token, checkIn, checkOut);
      efeitos := efeitos + fx;
      if fx[|fx| - 1] == Completed {
        isLoading := false;
      }
    }

    /**
     * `onBarCodeDetected`, with the raw values of the detected codes. A
     * detection while loading is ignored; one without a raw value lowers the
     * flag again instead of leaving it raised.
     */
    method OnBarCodeDetected(rawValues: seq<Option<string>>, token: Option<string>,
                             checkIn: Reply<CheckInResponse>, checkOut: Reply<CheckoutResponse>)
      modifies this
      ensures old(isLoading) ==> isLoading && efeitos == old(efeitos)
      ensures !old(isLoading) ==> !isLoading
      ensures !old(isLoading) && rawValues != [] && rawValues[0].Some? ==>
        efeitos == old(efeitos) + HandleScan(rawValues[0].value, scanMode, token, checkIn, checkOut)
      ensures !old(isLoading) && (rawValues == [] || rawValues[0].None?) ==> efeitos == old(efeitos)
    {
      if isLoading {
        return;
      }
      isLoading := true;
      if rawValues != [] && rawValues[0].Some? {
        Processar(rawValues[0].value, token, checkIn, checkOut);
      } else {
        isLoading := false;
      }
    }

    /** The simulation button, shown only while not loading. */
    method SimularLeitura(token: Option<string>,
                          checkIn: Reply<CheckInResponse>, checkOut: Reply<CheckoutResponse>)
      modifies this
      ensures old(isLoading) ==> isLoading && efeitos == old(efeitos)
      ensures !old(isLoading) ==>
        !isLoading && efeitos == old(efeitos) + HandleScan(ValorSimulado(scanMode), scanMode, token, checkIn, checkOut)
    {
      if isLoading {
        return;
      }
      isLoading := true;
      Processar(ValorSimulado(scanMode), token, checkIn, checkOut);
    }
  }
}
