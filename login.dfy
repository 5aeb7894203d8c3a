/**
 * `TelaLogin`: the login button. A click while a login is in flight is
 * ignored; otherwise the credentials are sent, and on success the token and
 * the user's id and name are saved before the app routes to the active
 * session, to card registration (no card yet) or home. The loading flag is
 * cleared whatever happens.
 */
module Login {
  import opened Wrappers
  import opened Remote
  import opened Ui
  import Session

  const LoginOk: string := "Login bem-sucedido!"
  const CredenciaisInvalidas: string := "Credenciais inválidas"
  const FalhaServidor: string := "Falha na conexão com o servidor."

  const RotaAtiva: string := "estacionamento_ativo/"
  const RotaCadastroCartao: string := "cadastro_cartao"
  const RotaHome: string := "home"

  /** Where a successful login goes. */
  function Destino(r: LoginResponse): (rota: string)
    ensures r.activeSessionInfo.Some? ==> rota == RotaAtiva + r.activeSessionInfo.value.horarioEntrada
    ensures r.activeSessionInfo.None? ==> rota == RotaCadastroCartao || rota == RotaHome
  {
    if r.activeSessionInfo.Some? then RotaAtiva + r.activeSessionInfo.value.horarioEntrada
    else if r.cardCount == 0 then RotaCadastroCartao
    else RotaHome
  }

  predicate ComecaCom(s: string, prefixo: string) {
    |prefixo| <= |s| && s[..|prefixo|] == prefixo
  }

  /**
   * The three destinations are told apart by the response alone: an open
   * session wins whatever the card count, and without one the card count
   * decides between card registration and home.
   */
  lemma DestinoEscolha(r: LoginResponse)
    ensures ComecaCom(Destino(r), RotaAtiva) <==> r.activeSessionInfo.Some?
    ensures Destino(r) == RotaCadastroCartao <==> r.activeSessionInfo.None? && r.cardCount == 0
    ensures Destino(r) == RotaHome <==> r.activeSessionInfo.None? && r.cardCount != 0
  {
    assert RotaHome != RotaCadastroCartao;
    if r.activeSessionInfo.Some? {
      var rota := Destino(r);
      assert rota[..|RotaAtiva|] == RotaAtiva;
    } else {
      assert |RotaCadastroCartao| < |RotaAtiva| && |RotaHome| < |RotaAtiva|;
    }
  }

  /** An open session decides the route on its own, whatever the card count. */
  lemma SessaoAtivaIgnoraCartoes(r: LoginResponse, outraContagem: int)
    requires r.activeSessionInfo.Some?
    ensures Destino(r.(cardCount := outraContagem)) == Destino(r)
  {
  }

  /** What the UI does with the answer to `login`, after sending the request. */
  function Resposta(reply: Reply<LoginResponse>): (fx: seq<Effect>)
    ensures reply.HasBody() ==>
      var b := reply.body.value;
      fx == [SaveAuthToken(b.accessToken), SaveUserData(b.userId, Some(b.userName)), Toast(LoginOk), Navigate(Destino(b))]
    ensures !reply.HasBody() ==> |fx| == 1 && fx[0].Toast?
    ensures reply.Threw? ==> fx == [Toast(FalhaServidor)]
  {
    match reply
    case HttpOk(Some(b)) =>
      [SaveAuthToken(b.accessToken), SaveUserData(b.userId, Some(b.userName)), Toast(LoginOk), Navigate(Destino(b))]
    case HttpOk(None) => [Toast(CredenciaisInvalidas)]
    case HttpError(_, _) => [Toast(CredenciaisInvalidas)]
    case Threw(_) => [Toast(FalhaServidor)]
  }

  predicate Salva(e: Effect) {
    e.SaveAuthToken? || e.SaveUserData?
  }

  /** On success everything is saved before the app navigates; otherwise nothing is saved and nothing navigates. */
  lemma SalvaAntesDeNavegar(reply: Reply<LoginResponse>)
    ensures var fx := Resposta(reply);
      forall i, j :: 0 <= i < |fx| && 0 <= j < |fx| && Salva(fx[i]) && fx[j].Navigate? ==> i < j
    ensures var fx := Resposta(reply);
      !reply.HasBody() ==> forall i :: 0 <= i < |fx| ==> !Salva(fx[i]) && !fx[i].Navigate?
    ensures var fx := Resposta(reply);
      reply.HasBody() <==> exists j :: 0 <= j < |fx| && fx[j].Navigate?
  {
    var fx := Resposta(reply);
    if reply.HasBody() {
      assert fx[3].Navigate?;
    }
  }

  class TelaLogin {
    var email: string
    var senha: string
    var isLoading: bool
    /** Everything the screen has done besides writing the session store, in order. */
    var efeitos: seq<Effect>
    const sessao: Session.SessionManager

    constructor (sessao: Session.SessionManager)
      ensures this.sessao == sessao
      ensures email == "" && senha == "" && !isLoading && efeitos == []
    {
      this.sessao := sessao;
      email, senha, isLoading, efeitos := "", "", false, [];
    }

    /** The e-mail and password fields' `onValueChange`. */
    method Digitar(novoEmail: string, novaSenha: string)
      modifies this
      ensures email == novoEmail && senha == novaSenha
      ensures isLoading == old(isLoading) && efeitos == old(efeitos)
    {
      email, senha := novoEmail, novaSenha;
    }

    /**
     * The login button's click, with the server's answer. The user data goes
     * to the session store through `saveUserData`; the token is saved by a
     * call the store does not define, so it is an effect.
     */
    method Entrar(reply: Reply<LoginResponse>)
      modifies this, sessao
      ensures email == old(email) && senha == old(senha)
      ensures old(isLoading) ==> isLoading && efeitos == old(efeitos) && sessao.prefs == old(sessao.prefs)
      ensures !old(isLoading) ==> !isLoading
      ensures !old(isLoading) ==>
        efeitos == old(efeitos) + [Request("login", None, [("email", email), ("senha", senha)])] + Resposta(reply)
      ensures !old(isLoading) && reply.HasBody() ==>
        sessao.prefs == Session.Saved(old(sessao.prefs), reply.body.value.userId, Some(reply.body.value.userName))
      ensures !reply.HasBody() ==> sessao.prefs == old(sessao.prefs)
    {
      if isLoading {
        return;
      }
      isLoading := true;
      efeitos := efeitos + [Request("login", None, [("email", email), ("senha", senha)])];
      if reply.HasBody() {
        sessao.SaveUserData(reply.body.value.userId, Some(reply.body.value.userName));
      }
      efeitos := efeitos + Resposta(reply);
      isLoading := false;
    }
  }
}
