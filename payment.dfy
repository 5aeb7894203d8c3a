/**
 * `PagamentoViewModel`: the payment summary flow. The view-model holds the
 * summary it was started with and moves its UI state through
 * ready → loading → success or failure, with a retry back to ready.
 *
 * Each public function is one event; `Passo` gives the state after it and
 * `Emitidos` the values the state flow takes on the way, in order.
 */
module Payment {
  import opened Wrappers
  import opened Text
  import opened Remote

  datatype ResumoPagamentoData = ResumoPagamentoData(
    sessaoId: int,
    cartaoId: int,
    entrada: string,
    saida: string,
    tempoTotal: string,
    valorTotal: string,
    finalCartao: string)

  datatype PagamentoUiState =
    | Ocioso
    | ProntoParaConfirmar(resumo: ResumoPagamentoData)
    | Carregando
    | Sucesso(valorConfirmado: string)
    | Falha(mensagemErro: string, erroEspecifico: Option<string>)

  const MensagemFalha: string :=
    "Não foi possível processar seu pagamento. Verifique os dados e tente novamente."

  /**
   * What the view-model holds: the UI state (null at first), the summary of the
   * payment in progress, and the check-in flag it writes to the session
   * (`None` while it has not written it).
   */
  datatype PagamentoVm = PagamentoVm(
    uiState: Option<PagamentoUiState>,
    dados: Option<ResumoPagamentoData>,
    checkInStatus: Option<bool>)

  const Inicial := PagamentoVm(None, None, None)

  datatype Evento =
    | Iniciar(resumo: ResumoPagamentoData)
      /** `processarPagamento`, with what `efetuarPagamento` returned. */
    | Processar(resultado: Outcome<()>)
    | TentarNovamente

  /** The state `processarPagamento` settles in for a repository result. */
  function Resultado(dados: ResumoPagamentoData, resultado: Outcome<()>): PagamentoUiState {
    match resultado
    case Succeeded(_) => Sucesso(dados.valorTotal)
    case Failed(msg) => Falha(MensagemFalha, Some("Motivo: " + Interpolate(msg)))
  }

  function Passo(vm: PagamentoVm, e: Evento): PagamentoVm {
    match e
    case Iniciar(r) => vm.(uiState := Some(ProntoParaConfirmar(r)), dados := Some(r))
    case Processar(res) =>
      if vm.dados.None? then vm
      else vm.(uiState := Some(Resultado(vm.dados.value, res)),
               checkInStatus := if res.Succeeded? then Some(false) else vm.checkInStatus)
    case TentarNovamente =>
      if vm.dados.None? then vm else vm.(uiState := Some(ProntoParaConfirmar(vm.dados.value)))
  }

  /** The values the UI state takes during one event. */
  function Emitidos(vm: PagamentoVm, e: Evento): seq<PagamentoUiState> {
    match e
    case Iniciar(r) => [ProntoParaConfirmar(r)]
    case Processar(res) => if vm.dados.None? then [] else [Carregando, Resultado(vm.dados.value, res)]
    case TentarNovamente => if vm.dados.None? then [] else [ProntoParaConfirmar(vm.dados.value)]
  }

  function Run(vm: PagamentoVm, es: seq<Evento>): PagamentoVm
    decreases |es|
  {
    if es == [] then vm else Run(Passo(vm, es[0]), es[1..])
  }

  /**
   * Between events: a UI state means a summary is held; the ready and success
   * states show that very summary and its total; neither the idle nor the
   * loading state is ever left standing.
   */
  ghost predicate Consistente(vm: PagamentoVm) {
    && (vm.uiState.Some? ==> vm.dados.Some?)
    && (forall r :: vm.uiState == Some(ProntoParaConfirmar(r)) ==> vm.dados == Some(r))
    && (forall v :: vm.uiState == Some(Sucesso(v)) ==> v == vm.dados.value.valorTotal)
    && vm.uiState != Some(Ocioso)
    && vm.uiState != Some(Carregando)
    && (vm.checkInStatus.Some? ==> vm.checkInStatus == Some(false))
  }

  lemma PassoConsistente(vm: PagamentoVm, e: Evento)
    requires Consistente(vm)
    ensures Consistente(Passo(vm, e))
  {
  }

  /** Every state reached from the start is consistent: in particular the success screen shows the held total. */
  lemma {:induction false} RunConsistente(vm: PagamentoVm, es: seq<Evento>)
    requires Consistente(vm)
    ensures Consistente(Run(vm, es))
    decreases |es|
  {
    if es != [] {
      PassoConsistente(vm, es[0]);
      RunConsistente(Passo(vm, es[0]), es[1..]);
    }
  }

  /** The success value is the total of the summary in hand, for any history. */
  lemma SucessoMostraTotal(es: seq<Evento>, v: string)
    requires Run(Inicial, es).uiState == Some(Sucesso(v))
    ensures Run(Inicial, es).dados.Some? && v == Run(Inicial, es).dados.value.valorTotal
  {
    RunConsistente(Inicial, es);
  }

  /** Once a summary is held it is never dropped, only replaced. */
  lemma {:induction false} DadosNuncaSomem(vm: PagamentoVm, es: seq<Evento>)
    requires vm.dados.Some?
    ensures Run(vm, es).dados.Some?
    decreases |es|
  {
    if es != [] {
      DadosNuncaSomem(Passo(vm, es[0]), es[1..]);
    }
  }

  /** Processing shows the loading state first and then exactly one outcome; without a summary it does nothing. */
  lemma ProcessarEmite(vm: PagamentoVm, res: Outcome<()>)
    ensures vm.dados.None? ==> Emitidos(vm, Processar(res)) == [] && Passo(vm, Processar(res)) == vm
    ensures vm.dados.Some? ==>
      var out := Emitidos(vm, Processar(res));
      && |out| == 2 && out[0] == Carregando
      && out[1] == Passo(vm, Processar(res)).uiState.value
      && (out[1].Sucesso? <==> res.Succeeded?)
      && (out[1].Sucesso? ==> Passo(vm, Processar(res)).checkInStatus == Some(false))
  {
  }

  /** After a failure, retrying puts the same summary back on screen. */
  lemma FalhaTentarDeNovo(vm: PagamentoVm, res: Outcome<()>)
    requires Consistente(vm) && vm.dados.Some? && res.Failed?
    ensures var falhou := Passo(vm, Processar(res));
      && falhou.uiState.value.Falha?
      && Passo(falhou, TentarNovamente).uiState == Some(ProntoParaConfirmar(vm.dados.value))
      && Passo(falhou, TentarNovamente).dados == vm.dados
  {
  }

  /** The failure detail carries the exception's message after the fixed prefix. */
  lemma FalhaTrazMotivo(r: ResumoPagamentoData, msg: Option<string>)
    ensures var f := Resultado(r, Failed(msg));
      && f.Falha? && f.erroEspecifico.Some?
      && f.erroEspecifico.value[..8] == "Motivo: "
      && f.erroEspecifico.value[8..] == Interpolate(msg)
  {
  }

  class PagamentoViewModel {
    var uiState: Option<PagamentoUiState>
    var dadosDoPagamentoAtual: Option<ResumoPagamentoData>
    var checkInStatus: Option<bool>
    /** Every value assigned to `_uiState.value`, in order; a `StateFlow` collector sees it only when it differs from the value before. */
    var emitidos: seq<PagamentoUiState>

    function Estado(): PagamentoVm
      reads this
    {
      PagamentoVm(uiState, dadosDoPagamentoAtual, checkInStatus)
    }

    constructor ()
      ensures Estado() == Inicial && emitidos == []
    {
      uiState, dadosDoPagamentoAtual, checkInStatus := None, None, None;
      emitidos := [];
    }

    method IniciarFluxoDePagamento(resumo: ResumoPagamentoData)
      modifies this
      ensures Estado() == Passo(old(Estado()), Iniciar(resumo))
      ensures emitidos == old(emitidos) + Emitidos(old(Estado()), Iniciar(resumo))
    {
      dadosDoPagamentoAtual := Some(resumo);
      uiState := Some(ProntoParaConfirmar(resumo));
      emitidos := emitidos + [ProntoParaConfirmar(resumo)];
    }

    /** `processarPagamento`; `resultado` is what `efetuarPagamento` returned for the held summary. */
    method ProcessarPagamento(resultado: Outcome<()>)
      modifies this
      ensures Estado() == Passo(old(Estado()), Processar(resultado))
      ensures emitidos == old(emitidos) + Emitidos(old(Estado()), Processar(resultado))
    {
      if dadosDoPagamentoAtual.None? {
        return;
      }
      var dadosAtuais := dadosDoPagamentoAtual.value;
      uiState := Some(Carregando);
      emitidos := emitidos + [Carregando];
      match resultado {
        case Succeeded(_) =>
          uiState := Some(Sucesso(dadosAtuais.valorTotal));
          checkInStatus := Some(false);
        case Failed(msg) =>
          uiState := Some(Falha(MensagemFalha, Some("Motivo: " + Interpolate(msg))));
      }
      emitidos := emitidos + [uiState.value];
    }

    method TentarNovamente()
      modifies this
      ensures Estado() == Passo(old(Estado()), Evento.TentarNovamente)
      ensures emitidos == old(emitidos) + Emitidos(old(Estado()), Evento.TentarNovamente)
    {
      if dadosDoPagamentoAtual.Some? {
        uiState := Some(ProntoParaConfirmar(dadosDoPagamentoAtual.value));
        emitidos := emitidos + [uiState.value];
      }
    }
  }
}
