/**
 * `CarManagementViewModel`: the user's car list, kept in the view-model and
 * synchronised with the car API. At most three cars can be added from the
 * app; removal drops every car with the given id; the example car gets an id
 * one above the largest one present.
 */
module Cars {
  import opened Wrappers
  import opened Text
  import opened Remote

  datatype Carro = Carro(
    id: Option<int>,
    marca: string,
    modelo: string,
    ano: int,
    placa: string,
    cor: string,
    imageUrl: string,
    userId: int)

  const LimiteCarros: nat := 3

  const NaoAutenticado: string := "Usuário não autenticado."
  const ErroBuscar: string := "Erro ao buscar os carros."
  const SessaoExpirada: string := "Sessão expirada. Faça login novamente."
  const LimiteAtingido: string := "Limite de 3 carros atingido."
  const ErroAdicionar: string := "Erro ao adicionar o carro."
  const NaoRemoveu: string := "Não foi possível remover o carro."

  function FalhaConexao(message: Option<string>): string {
    "Falha na conexão: " + Interpolate(message)
  }

  /**
   * How the suspending `addCarro` call ends: with the car the server stored,
   * with an `HttpException`, or with an `IOException` and its message.
   */
  datatype AddCarroResult = Adicionado(carro: Carro) | HttpFalhou | IoFalhou(message: Option<string>)

  // ---- addExampleCar's id ----

  /** The key `maxByOrNull { it.id ?: 0 }` compares. */
  function Chave(c: Carro): int {
    c.id.OrElse(0)
  }

  /** The car `maxByOrNull` picks: one of greatest key, and the first of those. */
  function IndiceDoMaximo(cs: seq<Carro>): (r: Option<nat>)
    ensures r.None? <==> cs == []
    ensures r.Some? ==> r.value < |cs|
    ensures r.Some? ==> forall j :: 0 <= j < |cs| ==> Chave(cs[j]) <= Chave(cs[r.value])
    ensures r.Some? ==> forall j :: 0 <= j < r.value ==> Chave(cs[j]) < Chave(cs[r.value])
    decreases |cs|
  {
    if cs == [] then None
    else
      var init := cs[..|cs| - 1];
      match IndiceDoMaximo(init)
      case None => Some(|cs| - 1)
      case Some(i) =>
        assert cs[i] == init[i];
        if Chave(cs[|cs| - 1]) > Chave(cs[i]) then Some(|cs| - 1) else Some(i)
  }

  /** `(maxByOrNull { it.id ?: 0 }?.id ?: 0) + 1`, the addition on Kotlin's `Int`. */
  function IdExemplo(cs: seq<Carro>): (r: int)
    ensures IntMin <= r <= IntMax
    ensures cs == [] ==> r == 1
  {
    match IndiceDoMaximo(cs)
    case None => 1
    case Some(i) => IntPlus(cs[i].id.OrElse(0), 1)
  }

  /** The ids a Kotlin `Int` can hold, short of `Int.MAX_VALUE`. */
  predicate IdsAbaixoDoMaximo(cs: seq<Carro>) {
    forall j :: 0 <= j < |cs| && cs[j].id.Some? ==> IntMin <= cs[j].id.value < IntMax
  }

  /**
   * The example id is an `Int`, and is 1 or the successor of some id present.
   * While no id is `Int.MAX_VALUE` it is above every id in the list.
   */
  lemma IdExemploNovo(cs: seq<Carro>)
    ensures IntMin <= IdExemplo(cs) <= IntMax
    ensures IdExemplo(cs) == 1 || exists j :: 0 <= j < |cs| && cs[j].id.Some? && IdExemplo(cs) == IntPlus(cs[j].id.value, 1)
    ensures IdsAbaixoDoMaximo(cs) ==> forall j :: 0 <= j < |cs| && cs[j].id.Some? ==> cs[j].id.value < IdExemplo(cs)
  {
    match IndiceDoMaximo(cs)
    case None =>
    case Some(i) =>
      if IdsAbaixoDoMaximo(cs) {
        assert IntMin - 1 <= Chave(cs[i]) < IntMax by {
          if cs[i].id.Some? { assert IntMin <= cs[i].id.value < IntMax; }
        }
        forall j | 0 <= j < |cs| && cs[j].id.Some? ensures cs[j].id.value < IdExemplo(cs) {
          assert Chave(cs[j]) <= Chave(cs[i]);
        }
      }
  }

  /** A car with id `Int.MAX_VALUE` makes the example id wrap to `Int.MIN_VALUE`, which another car may already hold. */
  lemma IdExemploTransborda(a: Carro, b: Carro)
    requires a.id == Some(IntMax) && b.id == Some(IntMin)
    ensures IdExemplo([a]) == IntMin
    ensures IdExemplo([b, a]) == b.id.value
  {
    assert IndiceDoMaximo([a]) == Some(0);
    assert [b, a][..1] == [b];
    assert IndiceDoMaximo([b, a]) == Some(1);
  }

  const ExemploMarca: string := "Hyundai"
  const ExemploModelo: string := "HB20"

  function CarroExemplo(id: int): Carro {
    Carro(Some(id), ExemploMarca, ExemploModelo, 2024, "XYZ-9H87", "Branco", "https://i.imgur.com/k2Hqs48.png", 1)
  }

  // ---- deletarCarro's removeAll ----

  /** The list after `removeAll { it.id == carroId }`. */
  function SemId(cs: seq<Carro>, carroId: int): (r: seq<Carro>)
    ensures forall c :: c in r <==> c in cs && c.id != Some(carroId)
    ensures |r| <= |cs|
  {
    if cs == [] then []
    else (if cs[0].id == Some(carroId) then [] else [cs[0]]) + SemId(cs[1..], carroId)
  }

  /** Removal keeps the order of the remaining cars: it works piecewise on a split list. */
  lemma {:induction false} SemIdAppend(a: seq<Carro>, b: seq<Carro>, carroId: int)
    ensures SemId(a + b, carroId) == SemId(a, carroId) + SemId(b, carroId)
    decreases |a|
  {
    if a != [] {
      assert (a + b)[0] == a[0];
      assert (a + b)[1..] == a[1..] + b;
      SemIdAppend(a[1..], b, carroId);
    } else {
      assert a + b == b;
    }
  }

  /** A list without the id is left as it is; so removing twice is removing once. */
  lemma {:induction false} SemIdSemEfeito(cs: seq<Carro>, carroId: int)
    requires forall j :: 0 <= j < |cs| ==> cs[j].id != Some(carroId)
    ensures SemId(cs, carroId) == cs
    decreases |cs|
  {
    if cs != [] {
      SemIdSemEfeito(cs[1..], carroId);
    }
  }

  lemma SemIdIdempotente(cs: seq<Carro>, carroId: int)
    ensures SemId(SemId(cs, carroId), carroId) == SemId(cs, carroId)
  {
    var r := SemId(cs, carroId);
    forall j | 0 <= j < |r| ensures r[j].id != Some(carroId) {
      assert r[j] in r;
    }
    SemIdSemEfeito(r, carroId);
  }

  class CarManagementViewModel {
    var carros: seq<Carro>
    var isLoading: bool
    var errorMessage: Option<string>
    /** How many times `_cadastroEvent` has emitted. */
    var cadastroEventos: nat

    /** `init` fetches the user's cars straight away. */
    constructor (token: Option<string>, reply: Reply<seq<Carro>>)
      ensures carros == (if token.Some? && reply.HttpOk? then reply.body.OrElse([]) else [])
      ensures !isLoading && cadastroEventos == 0
    {
      carros, isLoading, errorMessage, cadastroEventos := [], false, None, 0;
      new;
      BuscarCarrosDoUsuario(token, reply);
    }

    /** `buscarCarrosDoUsuario`; `token` is the saved auth token, `reply` the answer to `getCarro()`. */
    method BuscarCarrosDoUsuario(token: Option<string>, reply: Reply<seq<Carro>>)
      modifies this
      ensures cadastroEventos == old(cadastroEventos)
      ensures token.None? ==>
                carros == old(carros) && isLoading == old(isLoading) && errorMessage == Some(NaoAutenticado)
      ensures token.Some? ==> !isLoading
      ensures token.Some? && reply.HttpOk? ==> carros == reply.body.OrElse([]) && errorMessage.None?
      ensures token.Some? && reply.HttpError? ==> carros == old(carros) && errorMessage == Some(ErroBuscar)
      ensures token.Some? && reply.Threw? ==> carros == old(carros) && errorMessage == Some(FalhaConexao(reply.message))
    {
      if token.None? {
        errorMessage := Some(NaoAutenticado);
        return;
      }
      isLoading := true;
      errorMessage := None;
      match reply {
        case HttpOk(body) => carros := body.OrElse([]);
        case HttpError(_, _) => errorMessage := Some(ErroBuscar);
        case Threw(msg) => errorMessage := Some(FalhaConexao(msg));
      }
      isLoading := false;
    }

    /** `addCarro`: returns whether the car was sent to the API. */
    method AddCarro(token: Option<string>, novoCarro: Carro, resultado: AddCarroResult) returns (enviado: bool)
      modifies this
      ensures enviado <==> token.Some? && |old(carros)| < LimiteCarros
      ensures !enviado ==> carros == old(carros) && isLoading == old(isLoading) && cadastroEventos == old(cadastroEventos)
      ensures token.None? ==> errorMessage == Some(SessaoExpirada)
      ensures token.Some? && !enviado ==> errorMessage == Some(LimiteAtingido)
      ensures enviado ==> !isLoading
      ensures enviado && resultado.Adicionado? ==>
                carros == old(carros) + [resultado.carro] && errorMessage.None?
                && cadastroEventos == old(cadastroEventos) + 1
      ensures enviado && !resultado.Adicionado? ==>
                carros == old(carros) && cadastroEventos == old(cadastroEventos)
                && errorMessage == Some(if resultado.HttpFalhou? then ErroAdicionar else FalhaConexao(resultado.message))
      ensures |old(carros)| <= LimiteCarros ==> |carros| <= LimiteCarros
    {
      if token.None? {
        errorMessage := Some(SessaoExpirada);
        return false;
      }
      if |carros| >= LimiteCarros {
        errorMessage := Some(LimiteAtingido);
        return false;
      }
      enviado := true;
      isLoading := true;
      errorMessage := None;
      match resultado {
        case Adicionado(carroAdicionado) =>
          carros := carros + [carroAdicionado];
          cadastroEventos := cadastroEventos + 1;
        case HttpFalhou =>
          errorMessage := Some(ErroAdicionar);
        case IoFalhou(msg) =>
          errorMessage := Some(FalhaConexao(msg));
      }
      isLoading := false;
    }

    /** The id `addExampleCar` gives the new car, found by one pass over the list. */
    method ProximoIdExemplo() returns (newId: int)
      ensures newId == IdExemplo(carros)
      ensures IdsAbaixoDoMaximo(carros) ==> forall j :: 0 <= j < |carros| && carros[j].id.Some? ==> carros[j].id.value < newId
    {
      IdExemploNovo(carros);
      if |carros| == 0 {
        return 1;
      }
      var best := 0;
      var i := 1;
      assert carros[..1][..0] == [];
      while i < |carros|
        invariant 1 <= i <= |carros|
        invariant IndiceDoMaximo(carros[..i]) == Some(best)
      {
        assert carros[..i + 1][..i] == carros[..i];
        if Chave(carros[i]) > Chave(carros[best]) {
          best := i;
        }
        i := i + 1;
      }
      assert carros[..|carros|] == carros;
      newId := IntPlus(carros[best].id.OrElse(0), 1);
    }

    /** `addExampleCar`: builds the example car with a fresh id and adds it. */
    method AddExampleCar(token: Option<string>, resultado: AddCarroResult) returns (novo: Carro, enviado: bool)
      modifies this
      ensures novo == CarroExemplo(IdExemplo(old(carros)))
      ensures IdsAbaixoDoMaximo(old(carros)) ==> forall j :: 0 <= j < |old(carros)| ==> old(carros)[j].id != novo.id
      ensures enviado <==> token.Some? && |old(carros)| < LimiteCarros
      ensures enviado && resultado.Adicionado? ==> carros == old(carros) + [resultado.carro]
      ensures !enviado || !resultado.Adicionado? ==> carros == old(carros)
    {
      var newId := ProximoIdExemplo();
      novo := CarroExemplo(newId);
      enviado := AddCarro(token, novo, resultado);
    }

    /** `deletarCarro`; `reply` is the answer to `deleteCarro(carroId)`. */
    method DeletarCarro(token: Option<string>, carroId: int, reply: Reply<()>)
      modifies this
      ensures isLoading == old(isLoading) && cadastroEventos == old(cadastroEventos)
      ensures token.None? ==> carros == old(carros) && errorMessage == Some(SessaoExpirada)
      ensures token.Some? && reply.HttpOk? ==>
                carros == SemId(old(carros), carroId) && errorMessage == old(errorMessage)
      ensures token.Some? && reply.HttpError? ==> carros == old(carros) && errorMessage == Some(NaoRemoveu)
      ensures token.Some? && reply.Threw? ==> carros == old(carros) && errorMessage == Some(FalhaConexao(reply.message))
      ensures forall c :: c in carros ==> c in old(carros)
    {
      if token.None? {
        errorMessage := Some(SessaoExpirada);
        return;
      }
      match reply {
        case HttpOk(_) => carros := SemId(carros, carroId);
        case HttpError(_, _) => errorMessage := Some(NaoRemoveu);
        case Threw(msg) => errorMessage := Some(FalhaConexao(msg));
      }
    }
  }
}
