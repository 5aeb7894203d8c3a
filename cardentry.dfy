/**
 * `TelaCadastroCartao`: the card form of the cards section. The number,
 * expiry and CVC fields keep only digits and refuse texts longer than 16, 4
 * and 3 characters; on submit they are parsed, an empty or unparseable field
 * becoming 0, and the card is handed to the view-model for user 1.
 */
module CardEntry {
  import opened Wrappers
  import opened Text
  import opened Fields

  const MaxNumero: nat := 16
  const MaxValidade: nat := 4
  const MaxCvc: nat := 3
  /** The user id the form puts on every card. */
  const UsuarioFixo: int := 1

  /** The card the form hands to `addCartao`; `numero` is the `toLongOrNull` result. */
  datatype CartaoNovo = CartaoNovo(banco: string, nome: string, numero: int, validade: int, cvc: int, userId: int)

  /** The submitted card, built from the fields' texts. */
  function Montar(banco: string, nome: string, numero: string, validade: string, cvc: string): (c: CartaoNovo)
    ensures c.banco == banco && c.nome == nome && c.userId == UsuarioFixo
    ensures LongMin <= c.numero <= LongMax && IntMin <= c.validade <= IntMax && IntMin <= c.cvc <= IntMax
    ensures numero == [] ==> c.numero == 0
    ensures validade == [] ==> c.validade == 0
    ensures cvc == [] ==> c.cvc == 0
  {
    CartaoNovo(banco, nome, LongOrZero(numero), IntOrZero(validade), IntOrZero(cvc), UsuarioFixo)
  }

  /**
   * Fields the edit rules produced always parse: each number submitted is
   * exactly the decimal value of its field, so 0 only when the field is empty
   * or all zeros.
   */
  lemma MontarCamposValidos(banco: string, nome: string, numero: string, validade: string, cvc: string)
    requires AllDigits(numero) && |numero| <= MaxNumero
    requires AllDigits(validade) && |validade| <= MaxValidade
    requires AllDigits(cvc) && |cvc| <= MaxCvc
    ensures var c := Montar(banco, nome, numero, validade, cvc);
      c.numero == DecimalValue(numero) && c.validade == DecimalValue(validade) && c.cvc == DecimalValue(cvc)
  {
    assert Pow10(MaxNumero) == 10_000_000_000_000_000;
    ShortDigitsParse(numero, MaxNumero, LongMin, LongMax);
    ShortDigitsParse(validade, MaxValidade, IntMin, IntMax);
    ShortDigitsParse(cvc, MaxCvc, IntMin, IntMax);
  }

  class TelaCadastroCartao {
    var banco: string
    var nome: string
    var numero: string
    var validade: string
    var cvc: string

    predicate Valid()
      reads this
    {
      && AllDigits(numero) && |numero| <= MaxNumero
      && AllDigits(validade) && |validade| <= MaxValidade
      && AllDigits(cvc) && |cvc| <= MaxCvc
    }

    constructor ()
      ensures Valid()
      ensures banco == "" && nome == "" && numero == "" && validade == "" && cvc == ""
    {
      banco, nome, numero, validade, cvc := "", "", "", "", "";
    }

    method EditarBanco(novo: string)
      requires Valid()
      modifies this
      ensures Valid()
      ensures banco == novo && nome == old(nome) && numero == old(numero) && validade == old(validade) && cvc == old(cvc)
    {
      banco := novo;
    }

    method EditarNome(novo: string)
      requires Valid()
      modifies this
      ensures Valid()
      ensures nome == novo && banco == old(banco) && numero == old(numero) && validade == old(validade) && cvc == old(cvc)
    {
      nome := novo;
    }

    method EditarNumero(novo: string)
      requires Valid()
      modifies this
      ensures Valid()
      ensures numero == EditDigits(old(numero), novo, MaxNumero)
      ensures banco == old(banco) && nome == old(nome) && validade == old(validade) && cvc == old(cvc)
    {
      if |novo| <= MaxNumero {
        numero := DigitsOnly(novo);
      }
    }

    method EditarValidade(novo: string)
      requires Valid()
      modifies this
      ensures Valid()
      ensures validade == EditDigits(old(validade), novo, MaxValidade)
      ensures banco == old(banco) && nome == old(nome) && numero == old(numero) && cvc == old(cvc)
    {
      if |novo| <= MaxValidade {
        validade := DigitsOnly(novo);
      }
    }

    method EditarCvc(novo: string)
      requires Valid()
      modifies this
      ensures Valid()
      ensures cvc == EditDigits(old(cvc), novo, MaxCvc)
      ensures banco == old(banco) && nome == old(nome) && numero == old(numero) && validade == old(validade)
    {
      if |novo| <= MaxCvc {
        cvc := DigitsOnly(novo);
      }
    }

    /**
     * The submit button, shown only while the view-model is not loading:
     * returns the card handed to `addCartao`, if any.
     */
    method Cadastrar(vmCarregando: bool) returns (pedido: Option<CartaoNovo>)
      requires Valid()
      ensures vmCarregando <==> pedido.None?
      ensures pedido.Some? ==> pedido.value == Montar(banco, nome, numero, validade, cvc)
      ensures pedido.Some? ==>
        && pedido.value.numero == DecimalValue(numero)
        && pedido.value.validade == DecimalValue(validade)
        && pedido.value.cvc == DecimalValue(cvc)
    {
      if vmCarregando {
        return None;
      }
      MontarCamposValidos(banco, nome, numero, validade, cvc);
      pedido := Some(Montar(banco, nome, numero, validade, cvc));
    }
  }
}
