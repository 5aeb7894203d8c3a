/**
 * `EstacionamentoViewModel`: the check-in button. A tap while a check-in is
 * loading is ignored; otherwise the state becomes loading and a coroutine is
 * launched, which later settles the state from the saved token and the
 * server's reply. The launch and the settling are two events here, so that
 * taps arriving in between are part of the model.
 */
module CheckIn {
  import opened Wrappers
  import opened Remote

  datatype CheckInState =
    | Idle
    | Loading
    | Success(response: CheckInResponse)
    | Error(message: string)

  const NaoAutenticado: string := "Usuário não autenticado. Faça o login novamente."
  const ErroDesconhecido: string := "Erro desconhecido no check-in."
  const FalhaConexao: string := "Falha na conexão com o servidor."

  /** The state a launched check-in settles in, for the saved token and the reply to `registrarCheckIn`. */
  function Desfecho(token: Option<string>, reply: Reply<CheckInResponse>): (s: CheckInState)
    ensures s.Success? <==> token.Some? && reply.HasBody()
    ensures s.Success? ==> s.response == reply.body.value
    ensures token.None? ==> s == Error(NaoAutenticado)
    ensures s != Idle && s != Loading
  {
    if token.None? then Error(NaoAutenticado)
    else match reply
      case HttpOk(body) => if body.Some? then Success(body.value) else Error(ErroDesconhecido)
      case HttpError(_, eb) => Error(eb.OrElse(ErroDesconhecido))
      case Threw(_) => Error(FalhaConexao)
  }

  /** The state flow's value and the number of launched check-ins still running. */
  datatype CheckInVm = CheckInVm(state: CheckInState, running: nat)

  const Inicial := CheckInVm(Idle, 0)

  datatype Evento =
    | Tap
      /** One running check-in finishes. */
    | Settle(token: Option<string>, reply: Reply<CheckInResponse>)
    | Reset

  function Passo(vm: CheckInVm, e: Evento): CheckInVm {
    match e
    case Tap => if vm.state == Loading then vm else CheckInVm(Loading, vm.running + 1)
    case Settle(token, reply) =>
      if vm.running == 0 then vm else CheckInVm(Desfecho(token, reply), vm.running - 1)
    case Reset => vm.(state := Idle)
  }

  function Run(vm: CheckInVm, es: seq<Evento>): CheckInVm
    decreases |es|
  {
    if es == [] then vm else Run(Passo(vm, es[0]), es[1..])
  }

  predicate SemReset(es: seq<Evento>) {
    forall i :: 0 <= i < |es| ==> !es[i].Reset?
  }

  /** Without a reset in between, the guard keeps one check-in in flight at most, and it shows as loading. */
  ghost predicate UmaDeCadaVez(vm: CheckInVm) {
    vm.running <= 1 && (vm.running == 1 <==> vm.state == Loading)
  }

  lemma {:induction false} SemResetUmaDeCadaVez(vm: CheckInVm, es: seq<Evento>)
    requires UmaDeCadaVez(vm) && SemReset(es)
    ensures UmaDeCadaVez(Run(vm, es))
    decreases |es|
  {
    if es != [] {
      assert !es[0].Reset?;
      assert SemReset(es[1..]) by {
        forall i | 0 <= i < |es[1..]| ensures !es[1..][i].Reset? {
          assert es[1..][i] == es[i + 1];
        }
      }
      SemResetUmaDeCadaVez(Passo(vm, es[0]), es[1..]);
    }
  }

  /** Loading always has a check-in behind it that will settle it, resets or not. */
  lemma {:induction false} LoadingTemCheckInEmCurso(vm: CheckInVm, es: seq<Evento>)
    requires vm.state == Loading ==> vm.running >= 1
    ensures Run(vm, es).state == Loading ==> Run(vm, es).running >= 1
    decreases |es|
  {
    if es != [] {
      LoadingTemCheckInEmCurso(Passo(vm, es[0]), es[1..]);
    }
  }

  /** A reset while loading lets the next tap launch a second check-in alongside the first. */
  lemma ResetDuranteLoadingDuplica()
    ensures Run(Inicial, [Tap, Reset, Tap]) == CheckInVm(Loading, 2)
    ensures Run(Inicial, [Tap, Tap]) == CheckInVm(Loading, 1)
  {
  }

  class EstacionamentoViewModel {
    var checkInState: CheckInState
    var running: nat

    function Estado(): CheckInVm
      reads this
    {
      CheckInVm(checkInState, running)
    }

    constructor ()
      ensures Estado() == Inicial
    {
      checkInState, running := Idle, 0;
    }

    /** The synchronous part of `fazerCheckIn`: returns whether a check-in was launched. */
    method FazerCheckIn() returns (launched: bool)
      modifies this
      ensures Estado() == Passo(old(Estado()), Tap)
      ensures launched <==> old(checkInState) != Loading
    {
      if checkInState == Loading {
        return false;
      }
      checkInState := Loading;
      running := running + 1;
      launched := true;
    }

    /** The launched coroutine's body: read the token, call the API, publish the outcome. */
    method ConcluirCheckIn(token: Option<string>, reply: Reply<CheckInResponse>)
      requires running >= 1
      modifies this
      ensures Estado() == Passo(old(Estado()), Settle(token, reply))
    {
      running := running - 1;
      if token.None? {
        checkInState := Error(NaoAutenticado);
        return;
      }
      match reply {
        case HttpOk(body) =>
          if body.Some? {
            checkInState := Success(body.value);
          } else {
            checkInState := Error(ErroDesconhecido);
          }
        case HttpError(_, eb) =>
          checkInState := Error(eb.OrElse(ErroDesconhecido));
        case Threw(_) =>
          checkInState := Error(FalhaConexao);
      }
    }

    method ResetState()
      modifies this
      ensures Estado() == Passo(old(Estado()), Reset)
    {
      checkInState := Idle;
    }
  }
}

/**
 * `SelecaoCartaoViewModel`: loads the user's cards for the payment screen.
 * An empty list is reported as a failure, so a success always has a card.
 */
module CardSelection {
  import opened Wrappers
  import opened Remote

  datatype SelecaoCartaoUiState =
    | Carregando
    | Sucesso(cartoes: seq<CartaoResponse>)
    | Falha(mensagem: string)

  const NenhumCartao: string := "Nenhum cartão cadastrado."
  const NaoCarregou: string := "Não foi possível carregar os cartões."

  /** The state `carregarCartoes` settles in for what `getCartoesDoUsuario` returned. */
  function Desfecho(resultado: Outcome<seq<CartaoResponse>>): (s: SelecaoCartaoUiState)
    ensures s.Sucesso? <==> resultado.Succeeded? && |resultado.value| > 0
    ensures s.Sucesso? ==> s.cartoes == resultado.value && |s.cartoes| > 0
    ensures resultado == Succeeded([]) ==> s == Falha(NenhumCartao)
    ensures resultado.Failed? && resultado.message.Some? ==> s == Falha(resultado.message.value)
    ensures s != Carregando
  {
    match resultado
    case Succeeded(cartoes) => if |cartoes| > 0 then Sucesso(cartoes) else Falha(NenhumCartao)
    case Failed(msg) => Falha(msg.OrElse(NaoCarregou))
  }

  class SelecaoCartaoViewModel {
    var uiState: SelecaoCartaoUiState
    /** Every value assigned to `_uiState.value` after the initial one, in order; a `StateFlow` collector sees it only when it differs from the value before. */
    var emitidos: seq<SelecaoCartaoUiState>

    constructor ()
      ensures uiState == Carregando && emitidos == []
    {
      uiState := Carregando;
      emitidos := [];
    }

    /** `carregarCartoes(usuarioId)`; `resultado` is the repository's answer for that user. */
    method CarregarCartoes(usuarioId: int, resultado: Outcome<seq<CartaoResponse>>)
      modifies this
      ensures uiState == Desfecho(resultado)
      ensures emitidos == old(emitidos) + [Carregando, Desfecho(resultado)]
    {
      uiState := Carregando;
      emitidos := emitidos + [Carregando];
      match resultado {
        case Succeeded(cartoes) =>
          if |cartoes| > 0 {
            uiState := Sucesso(cartoes);
          } else {
            uiState := Falha(NenhumCartao);
          }
        case Failed(msg) =>
          uiState := Falha(msg.OrElse(NaoCarregou));
      }
      emitidos := emitidos + [uiState];
    }
  }
}
