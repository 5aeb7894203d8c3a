/**
 * `TelaCadastroCarro`: the car form. The plate and year fields refuse texts
 * longer than 7 and 4 characters and keep only the digits of what is typed
 * (so letters typed into the plate are dropped); the colour has no field and
 * stays empty. The submit button, shown only while the view-model is not
 * loading, hands the car to `addCarro`, and every `cadastroEvent` the
 * view-model emits sends the app to the car list.
 */
module CarForm {
  import opened Wrappers
  import opened Text
  import opened Ui
  import opened Fields
  import Cars

  const MaxPlaca: nat := 7
  const MaxAno: nat := 4
  const ImagemExemplo: string := "URL de exemplo"
  /** The user id the form puts on every car. */
  const UsuarioFixo: int := 1
  const RotaCarros: string := "carros"

  /** The car the button builds from the fields; `ano` is `toIntOrNull() ?: 0`. */
  function NovoCarro(marca: string, modelo: string, ano: string, placa: string, cor: string): (c: Cars.Carro)
    ensures c.id.None? && c.imageUrl == ImagemExemplo && c.userId == UsuarioFixo
    ensures c.marca == marca && c.modelo == modelo && c.placa == placa && c.cor == cor
    ensures IntMin <= c.ano <= IntMax
    ensures ano == [] ==> c.ano == 0
  {
    Cars.Carro(None, marca, modelo, IntOrZero(ano), placa, cor, ImagemExemplo, UsuarioFixo)
  }

  /** A year the edit rule let through is submitted as its decimal value. */
  lemma NovoCarroAno(marca: string, modelo: string, ano: string, placa: string, cor: string)
    requires AllDigits(ano) && |ano| <= MaxAno
    ensures NovoCarro(marca, modelo, ano, placa, cor).ano == DecimalValue(ano)
  {
    ShortDigitsParse(ano, MaxAno, IntMin, IntMax);
  }

  /** The plate field keeps digits only: a Brazilian plate typed in full loses its letters. */
  lemma PlacaPerdeLetras()
    ensures EditDigits("", "ABC1D23", MaxPlaca) == "123"
  {
    var vazio: string := [];
    DigitsOnlySnoc(vazio, 'A');
    assert vazio + ['A'] == "A";
    DigitsOnlySnoc("A", 'B');
    assert "A" + ['B'] == "AB";
    DigitsOnlySnoc("AB", 'C');
    assert "AB" + ['C'] == "ABC";
    DigitsOnlySnoc("ABC", '1');
    assert "ABC" + ['1'] == "ABC1";
    DigitsOnlySnoc("ABC1", 'D');
    assert "ABC1" + ['D'] == "ABC1D";
    DigitsOnlySnoc("ABC1D", '2');
    assert "ABC1D" + ['2'] == "ABC1D2";
    DigitsOnlySnoc("ABC1D2", '3');
    assert "ABC1D2" + ['3'] == "ABC1D23";
  }

  class TelaCadastroCarro {
    var marca: string
    var modelo: string
    var ano: string
    var placa: string
    /** `cor` is remembered state that nothing ever assigns. */
    const cor: string
    /** Navigations the screen has made. */
    var efeitos: seq<Effect>
    const vm: Cars.CarManagementViewModel

    predicate Valid()
      reads this
    {
      && AllDigits(placa) && |placa| <= MaxPlaca
      && AllDigits(ano) && |ano| <= MaxAno
      && cor == ""
    }

    constructor (vm: Cars.CarManagementViewModel)
      ensures Valid()
      ensures this.vm == vm
      ensures marca == "" && modelo == "" && ano == "" && placa == "" && efeitos == []
    {
      this.vm := vm;
      cor := "";
      marca, modelo, ano, placa := "", "", "", "";
      efeitos := [];
    }

    method EditarMarca(novo: string)
      requires Valid()
      modifies this
      ensures Valid()
      ensures marca == novo && modelo == old(modelo) && ano == old(ano) && placa == old(placa) && efeitos == old(efeitos)
    {
      marca := novo;
    }

    method EditarModelo(novo: string)
      requires Valid()
      modifies this
      ensures Valid()
      ensures modelo == novo && marca == old(marca) && ano == old(ano) && placa == old(placa) && efeitos == old(efeitos)
    {
      modelo := novo;
    }

    method EditarPlaca(novo: string)
      requires Valid()
      modifies this
      ensures Valid()
      ensures placa == EditDigits(old(placa), novo, MaxPlaca)
      ensures marca == old(marca) && modelo == old(modelo) && ano == old(ano) && efeitos == old(efeitos)
    {
      if |novo| <= MaxPlaca {
        placa := DigitsOnly(novo);
      }
    }

    method EditarAno(novo: string)
      requires Valid()
      modifies this
      ensures Valid()
      ensures ano == EditDigits(old(ano), novo, MaxAno)
      ensures marca == old(marca) && modelo == old(modelo) && placa == old(placa) && efeitos == old(efeitos)
    {
      if |novo| <= MaxAno {
        ano := DigitsOnly(novo);
      }
    }

    /**
     * The submit button with the saved token and the outcome of the add call.
     * While the view-model is loading the button is not there and nothing
     * happens; otherwise the car is handed over, and an accepted car makes
     * the view-model emit and the screen go to the car list.
     */
    method Cadastrar(token: Option<string>, resultado: Cars.AddCarroResult) returns (novo: Option<Cars.Carro>, enviado: bool)
      requires Valid()
      modifies this, vm
      ensures Valid()
      ensures marca == old(marca) && modelo == old(modelo) && ano == old(ano) && placa == old(placa)
      ensures old(vm.isLoading) ==> novo.None? && !enviado && efeitos == old(efeitos)
      ensures old(vm.isLoading) ==> vm.carros == old(vm.carros) && vm.cadastroEventos == old(vm.cadastroEventos)
      ensures !old(vm.isLoading) ==> novo == Some(NovoCarro(marca, modelo, ano, placa, ""))
      ensures !old(vm.isLoading) ==> novo.value.ano == DecimalValue(ano) && novo.value.cor == ""
      ensures enviado <==> !old(vm.isLoading) && token.Some? && |old(vm.carros)| < Cars.LimiteCarros
      ensures enviado && resultado.Adicionado? ==>
        vm.carros == old(vm.carros) + [resultado.carro] && efeitos == old(efeitos) + [Navigate(RotaCarros)]
      ensures !(enviado && resultado.Adicionado?) ==> vm.carros == old(vm.carros) && efeitos == old(efeitos)
    {
      if vm.isLoading {
        return None, false;
      }
      NovoCarroAno(marca, modelo, ano, placa, cor);
      var carro := NovoCarro(marca, modelo, ano, placa, cor);
      novo := Some(carro);
      var eventos := vm.cadastroEventos;
      enviado := vm.AddCarro(token, carro, resultado);
      if vm.cadastroEventos != eventos {
        efeitos := efeitos + [Navigate(RotaCarros)];
      }
    }
  }
}
