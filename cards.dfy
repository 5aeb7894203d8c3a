/**
 * `CartaoViewModel`: registering a card and listing the user's cards. Both
 * read the user id saved by the session store and refuse to start without
 * one (-1); otherwise they publish a loading state, call the API and publish
 * the outcome.
 */
module Cards {
  import opened Wrappers
  import opened Text
  import opened Remote
  import opened Ui
  import Session

  datatype CadastroCartaoState = Idle | Loading | Success | Error(message: string)

  datatype ListaCartoesState =
    | ListaLoading
    | ListaSuccess(cartoes: seq<CartaoResponse>)
    | ListaError(message: string)

  const IdNaoEncontrado: string := "ID do usuário não encontrado."
  const ErroDesconhecido: string := "Erro desconhecido."
  const NaoAutenticado: string := "Usuário não autenticado."
  const PrefixoErroBusca: string := "Erro ao buscar cartões: "

  /**
   * The request `cadastrarCartao` sends: the form's fields and the saved user
   * id, under an Authorization header that is the bare `"Bearer "`.
   */
  function PedidoCadastro(userId: int, numero: string, nome: string, validade: string, cvv: string): Effect {
    Request("cadastrarCartao", Some("Bearer "),
      [("numero", numero), ("nome", nome), ("validade", validade), ("cvv", cvv), ("usuario_id", IntToString(userId))])
  }

  /** The state a registration settles in for the reply. */
  function DesfechoCadastro(reply: Reply<()>): (s: CadastroCartaoState)
    ensures s == Success <==> reply.HttpOk?
    ensures s != Idle && s != Loading
    ensures reply.HttpError? && reply.errorBody.Some? ==> s == Error(reply.errorBody.value)
  {
    match reply
    case HttpOk(_) => Success
    case HttpError(_, eb) => Error(eb.OrElse(ErroDesconhecido))
    case Threw(msg) => Error("Falha na conexão: " + Interpolate(msg))
  }

  /** The state a listing settles in for the reply. */
  function DesfechoBusca(reply: Reply<seq<CartaoResponse>>): (s: ListaCartoesState)
    ensures s.ListaSuccess? <==> reply.HttpOk?
    ensures reply.HttpOk? ==> s.cartoes == reply.body.OrElse([])
    ensures s != ListaLoading
  {
    match reply
    case HttpOk(body) => ListaSuccess(body.OrElse([]))
    case HttpError(code, _) => ListaError(PrefixoErroBusca + IntToString(code))
    case Threw(msg) => ListaError("Falha na conexão ao buscar cartões: " + Interpolate(msg))
  }

  /** The listing's error message carries the HTTP status, which reads back from it. */
  lemma ErroBuscaTrazCodigo(code: int, eb: Option<string>)
    requires 0 <= code <= IntMax
    ensures var s := DesfechoBusca(HttpError(code, eb));
      && s.ListaError?
      && s.message[..|PrefixoErroBusca|] == PrefixoErroBusca
      && ParseInteger(s.message[|PrefixoErroBusca|..], IntMin, IntMax) == Some(code)
  {
    var s := DesfechoBusca(HttpError(code, eb));
    assert s.message[|PrefixoErroBusca|..] == NatToString(code);
  }

  class CartaoViewModel {
    var cadastroState: CadastroCartaoState
    var listaCartoesState: ListaCartoesState
    /** Every value assigned to `_cadastroState.value` after the initial one, in order; a `StateFlow` collector sees it only when it differs from the value before. */
    var cadastroEmitidos: seq<CadastroCartaoState>
    /** Every value assigned to `_listaCartoesState.value` after the initial one, in order; a `StateFlow` collector sees it only when it differs from the value before. */
    var listaEmitidos: seq<ListaCartoesState>

    constructor ()
      ensures cadastroState == Idle && listaCartoesState == ListaLoading
      ensures cadastroEmitidos == [] && listaEmitidos == []
    {
      cadastroState, listaCartoesState := Idle, ListaLoading;
      cadastroEmitidos, listaEmitidos := [], [];
    }

    /**
     * `cadastrarCartao`: `prefs` is the session store at the time of the
     * call, `reply` the API's answer. Returns the request sent, if any.
     */
    method CadastrarCartao(prefs: Session.Prefs, numero: string, nome: string, validade: string, cvv: string,
                           reply: Reply<()>)
      returns (pedido: Option<Effect>)
      modifies this
      ensures listaCartoesState == old(listaCartoesState) && listaEmitidos == old(listaEmitidos)
      ensures Session.UserIdOf(prefs) == -1 ==>
                && pedido.None?
                && cadastroState == Error(IdNaoEncontrado)
                && cadastroEmitidos == old(cadastroEmitidos) + [Error(IdNaoEncontrado)]
      ensures Session.UserIdOf(prefs) != -1 ==>
                && pedido == Some(PedidoCadastro(Session.UserIdOf(prefs), numero, nome, validade, cvv))
                && cadastroState == DesfechoCadastro(reply)
                && cadastroEmitidos == old(cadastroEmitidos) + [Loading, DesfechoCadastro(reply)]
    {
      var userId := Session.UserIdOf(prefs);
      if userId == -1 {
        cadastroState := Error(IdNaoEncontrado);
        cadastroEmitidos := cadastroEmitidos + [cadastroState];
        return None;
      }
      cadastroState := Loading;
      cadastroEmitidos := cadastroEmitidos + [Loading];
      pedido := Some(PedidoCadastro(userId, numero, nome, validade, cvv));
      match reply {
        case HttpOk(_) => cadastroState := Success;
        case HttpError(_, eb) => cadastroState := Error(eb.OrElse(ErroDesconhecido));
        case Threw(msg) => cadastroState := Error("Falha na conexão: " + Interpolate(msg));
      }
      cadastroEmitidos := cadastroEmitidos + [cadastroState];
    }

    method ResetState()
      modifies this
      ensures cadastroState == Idle && cadastroEmitidos == old(cadastroEmitidos) + [Idle]
      ensures listaCartoesState == old(listaCartoesState) && listaEmitidos == old(listaEmitidos)
    {
      cadastroState := Idle;
      cadastroEmitidos := cadastroEmitidos + [Idle];
    }

    /** `buscarCartoes`: the saved user's cards, as `getCartoesDoUsuario(userId)` answers. */
    method BuscarCartoes(prefs: Session.Prefs, reply: Reply<seq<CartaoResponse>>)
      returns (pedidoUserId: Option<int>)
      modifies this
      ensures cadastroState == old(cadastroState) && cadastroEmitidos == old(cadastroEmitidos)
      ensures Session.UserIdOf(prefs) == -1 ==>
                && pedidoUserId.None?
                && listaCartoesState == ListaError(NaoAutenticado)
                && listaEmitidos == old(listaEmitidos) + [ListaError(NaoAutenticado)]
      ensures Session.UserIdOf(prefs) != -1 ==>
                && pedidoUserId == Some(Session.UserIdOf(prefs))
                && listaCartoesState == DesfechoBusca(reply)
                && listaEmitidos == old(listaEmitidos) + [ListaLoading, DesfechoBusca(reply)]
    {
      var userId := Session.UserIdOf(prefs);
      if userId == -1 {
        listaCartoesState := ListaError(NaoAutenticado);
        listaEmitidos := listaEmitidos + [listaCartoesState];
        return None;
      }
      listaCartoesState := ListaLoading;
      listaEmitidos := listaEmitidos + [ListaLoading];
      pedidoUserId := Some(userId);
      match reply {
        case HttpOk(body) => listaCartoesState := ListaSuccess(body.OrElse([]));
        case HttpError(code, _) => listaCartoesState := ListaError(PrefixoErroBusca + IntToString(code));
        case Threw(msg) => listaCartoesState := ListaError("Falha na conexão ao buscar cartões: " + Interpolate(msg));
      }
      listaEmitidos := listaEmitidos + [listaCartoesState];
    }
  }
}
