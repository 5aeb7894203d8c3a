/**
 * `CadastroCartaoScreen`: the card form shown after a login with no card.
 * The number and the CVV are capped at 16 and 3 characters; the expiry is
 * reformatted on every edit as `MM/AA` from the first four digits typed.
 * Saving needs a saved token: without one the screen sends the user back to
 * login, with one it posts the card and goes home on success.
 */
module CardForm {
  import opened Wrappers
  import opened Text
  import opened Remote
  import opened Ui
  import opened Fields

  const MaxNumero: nat := 16
  const MaxCvv: nat := 3

  const SessaoInvalida: string := "Sessão inválida. Faça login novamente."
  const Cadastrado: string := "Cartão cadastrado com sucesso!"
  const ErroCadastro: string := "Erro ao cadastrar cartão."
  const FalhaServidor: string := "Falha na conexão com o servidor."

  /** The expiry field's `onValueChange`: at most four digits, with a slash after the second when there are more than two. */
  function FormatarValidade(novo: string): (r: string)
    ensures |r| <= 5
  {
    var d := Take(DigitsOnly(novo), 4);
    if |d| <= 2 then d else d[..2] + "/" + d[2..]
  }

  /** The slash the formatter puts in is the only non-digit it keeps. */
  lemma DigitsAroundSlash(a: string, b: string)
    requires AllDigits(a) && AllDigits(b)
    ensures DigitsOnly(a + "/" + b) == a + b
  {
    var barra: string := "/";
    assert DigitsOnly(barra) == [] by {
      assert barra[..0] == [];
      assert !IsDigit(barra[0]);
    }
    DigitsOnlyAppend(a, barra);
    assert DigitsOnly(a + barra) == a;
    DigitsOnlyAppend(a + barra, b);
  }

  /** What the expiry field shows: the first four digits typed, with the slash at index 2 once a third digit is there. */
  lemma FormatarValidadeForma(novo: string)
    ensures var d := Take(DigitsOnly(novo), 4);
      var r := FormatarValidade(novo);
      && DigitsOnly(r) == d
      && (|d| <= 2 ==> r == d && '/' !in r)
      && (|d| > 2 ==> |r| == |d| + 1 && r[2] == '/' && r[..2] == d[..2] && r[3..] == d[2..])
  {
    var d := Take(DigitsOnly(novo), 4);
    assert AllDigits(d) by {
      forall i | 0 <= i < |d| ensures IsDigit(d[i]) {
        assert d[i] == DigitsOnly(novo)[i];
      }
    }
    if |d| <= 2 {
      assert '/' !in d by {
        forall i | 0 <= i < |d| ensures d[i] != '/' {
          assert IsDigit(d[i]);
        }
      }
    } else {
      var r := d[..2] + "/" + d[2..];
      assert AllDigits(d[..2]) && AllDigits(d[2..]);
      DigitsAroundSlash(d[..2], d[2..]);
      assert d[..2] + d[2..] == d;
      assert r[..2] == d[..2] && r[3..] == d[2..];
    }
  }

  /** Formatting what the field already shows changes nothing. */
  lemma FormatarValidadeIdempotente(novo: string)
    ensures FormatarValidade(FormatarValidade(novo)) == FormatarValidade(novo)
  {
    var d := Take(DigitsOnly(novo), 4);
    var r := FormatarValidade(novo);
    FormatarValidadeForma(novo);
    assert Take(DigitsOnly(r), 4) == d;
  }

  lemma FormatarValidadeExemplo()
    ensures FormatarValidade("1") == "1"
    ensures FormatarValidade("0125") == "01/25"
  {
    assert DigitsOnly("1") == "1";
    var d := Take(DigitsOnly("0125"), 4);
    assert d == "0125";
    assert d[..2] + "/" + d[2..] == "01/25";
  }

  /** What saving does, for the saved token and the answer to `cadastrarCartao`. */
  function Salvar(token: Option<string>, numero: string, nome: string, validade: string, cvv: string,
                  reply: Reply<()>): (fx: seq<Effect>)
    ensures token.None? ==> fx == [Toast(SessaoInvalida), Navigate("login")]
    ensures token.Some? ==>
      |fx| >= 2 && fx[0] == Request("cadastrarCartao", Some(Bearer(token.value)),
                                    [("numero", numero), ("nome", nome), ("validade", validade), ("cvv", cvv)])
  {
    match token
    case None => [Toast(SessaoInvalida), Navigate("login")]
    case Some(t) =>
      var pedido := Request("cadastrarCartao", Some(Bearer(t)),
                            [("numero", numero), ("nome", nome), ("validade", validade), ("cvv", cvv)]);
      match reply
      case HttpOk(_) => [pedido, Toast(Cadastrado), Navigate("home")]
      case HttpError(_, eb) => [pedido, Toast("Erro: " + eb.OrElse(ErroCadastro))]
      case Threw(_) => [pedido, Toast(FalhaServidor)]
  }

  /** The form leaves for home exactly when a token is saved and the server accepts the card. */
  lemma SalvarVaiParaHome(token: Option<string>, numero: string, nome: string, validade: string, cvv: string,
                          reply: Reply<()>)
    ensures var fx := Salvar(token, numero, nome, validade, cvv, reply);
      (exists i :: 0 <= i < |fx| && fx[i] == Navigate("home")) <==> token.Some? && reply.HttpOk?
  {
    var fx := Salvar(token, numero, nome, validade, cvv, reply);
    if token.Some? && reply.HttpOk? {
      assert fx[2] == Navigate("home");
    }
  }

  /** Without a token nothing is posted. */
  lemma SemTokenNaoEnvia(numero: string, nome: string, validade: string, cvv: string, reply: Reply<()>)
    ensures var fx := Salvar(None, numero, nome, validade, cvv, reply);
      forall i :: 0 <= i < |fx| ==> !fx[i].Request?
  {
  }

  class CadastroCartaoScreen {
    var numeroCartao: string
    var nomeTitular: string
    var dataValidade: string
    var cvv: string
    var isLoading: bool
    var efeitos: seq<Effect>

    /** The caps hold and the expiry is always in its formatted shape. */
    predicate Valid()
      reads this
    {
      |numeroCartao| <= MaxNumero && |cvv| <= MaxCvv && FormatarValidade(dataValidade) == dataValidade
    }

    constructor ()
      ensures Valid()
      ensures numeroCartao == "" && nomeTitular == "" && dataValidade == "" && cvv == ""
      ensures !isLoading && efeitos == []
    {
      numeroCartao, nomeTitular, dataValidade, cvv := "", "", "", "";
      isLoading, efeitos := false, [];
    }

    method EditarNumero(novo: string)
      requires Valid()
      modifies this
      ensures Valid()
      ensures numeroCartao == EditCapped(old(numeroCartao), novo, MaxNumero)
      ensures nomeTitular == old(nomeTitular) && dataValidade == old(dataValidade) && cvv == old(cvv)
      ensures isLoading == old(isLoading) && efeitos == old(efeitos)
    {
      if |novo| <= MaxNumero {
        numeroCartao := novo;
      }
    }

    method EditarNome(novo: string)
      requires Valid()
      modifies this
      ensures Valid()
      ensures nomeTitular == novo
      ensures numeroCartao == old(numeroCartao) && dataValidade == old(dataValidade) && cvv == old(cvv)
      ensures isLoading == old(isLoading) && efeitos == old(efeitos)
    {
      nomeTitular := novo;
    }

    method EditarValidade(novo: string)
      requires Valid()
      modifies this
      ensures Valid()
      ensures dataValidade == FormatarValidade(novo)
      ensures numeroCartao == old(numeroCartao) && nomeTitular == old(nomeTitular) && cvv == old(cvv)
      ensures isLoading == old(isLoading) && efeitos == old(efeitos)
    {
      FormatarValidadeIdempotente(novo);
      dataValidade := FormatarValidade(novo);
    }

    method EditarCvv(novo: string)
      requires Valid()
      modifies this
      ensures Valid()
      ensures cvv == EditCapped(old(cvv), novo, MaxCvv)
      ensures numeroCartao == old(numeroCartao) && nomeTitular == old(nomeTitular) && dataValidade == old(dataValidade)
      ensures isLoading == old(isLoading) && efeitos == old(efeitos)
    {
      if |novo| <= MaxCvv {
        cvv := novo;
      }
    }

    /** The save button: ignored while loading; the loading flag is cleared on every path. */
    method BotaoSalvar(token: Option<string>, reply: Reply<()>)
      modifies this
      ensures numeroCartao == old(numeroCartao) && nomeTitular == old(nomeTitular)
      ensures dataValidade == old(dataValidade) && cvv == old(cvv)
      ensures old(isLoading) ==> isLoading && efeitos == old(efeitos)
      ensures !old(isLoading) ==>
        !isLoading && efeitos == old(efeitos) + Salvar(token, numeroCartao, nomeTitular, dataValidade, cvv, reply)
    {
      if isLoading {
        return;
      }
      isLoading := true;
      efeitos := efeitos + Salvar(token, numeroCartao, nomeTitular, dataValidade, cvv, reply);
      isLoading := false;
    }
  }
}
