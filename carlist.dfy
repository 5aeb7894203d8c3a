/**
 * `TelaCarrosContent`, the stateless car-list screen: the add button is
 * enabled while there are fewer than three cars, and an empty list shows the
 * empty state instead of the list. Its companion form content
 * (`TelaCadastroCarroContent`) forwards plate edits of at most 7 characters
 * as typed and year edits of at most 4 characters reduced to their digits.
 */
module CarList {
  import opened Wrappers
  import opened Text
  import opened Fields
  import Cars

  /** `carList.size < 3` */
  function PodeAdicionar(carList: seq<Cars.Carro>): (b: bool)
    ensures b <==> |carList| < Cars.LimiteCarros
  {
    |carList| < 3
  }

  /** An enabled button never lets the list pass the view-model's limit with one more car. */
  lemma AdicionarRespeitaLimite(carList: seq<Cars.Carro>, novo: Cars.Carro)
    requires PodeAdicionar(carList)
    ensures |carList + [novo]| <= Cars.LimiteCarros
    ensures !PodeAdicionar(carList + [novo]) <==> |carList| == Cars.LimiteCarros - 1
  {
  }

  datatype Corpo = EstadoVazio | ListaDeCarros(cars: seq<Cars.Carro>)

  /** What the screen's body shows. */
  function Conteudo(carList: seq<Cars.Carro>): (r: Corpo)
    ensures r.EstadoVazio? <==> carList == []
    ensures r.ListaDeCarros? ==> r.cars == carList && |r.cars| > 0
  {
    if |carList| == 0 then EstadoVazio else ListaDeCarros(carList)
  }

  /** The empty state is shown only while a car can still be added. */
  lemma VazioPodeAdicionar(carList: seq<Cars.Carro>)
    requires Conteudo(carList).EstadoVazio?
    ensures PodeAdicionar(carList)
  {
  }

  /** The plate field's `onValueChange`: the value handed to `onPlacaChange`, if any. */
  function RepassarPlaca(novo: string): (r: Option<string>)
    ensures r.Some? <==> |novo| <= 7
    ensures r.Some? ==> r.value == novo
  {
    if |novo| <= 7 then Some(novo) else None
  }

  /** The year field's `onValueChange`: the value handed to `onAnoChange`, if any. */
  function RepassarAno(novo: string): (r: Option<string>)
    ensures r.Some? <==> |novo| <= 4
    ensures r.Some? ==> AllDigits(r.value) && |r.value| <= 4
  {
    if |novo| <= 4 then Some(DigitsOnly(novo)) else None
  }

  /** The field after its holder applies what was forwarded (or keeps its value when nothing was). */
  function Aplicar(atual: string, repasse: Option<string>): string {
    repasse.OrElse(atual)
  }

  /**
   * A holder that stores what is forwarded gets the capped rule for the
   * plate and the digit rule for the year, the same limits as the car form.
   */
  lemma RepasseComoRegras(atual: string, novo: string)
    ensures Aplicar(atual, RepassarPlaca(novo)) == EditCapped(atual, novo, 7)
    ensures Aplicar(atual, RepassarAno(novo)) == EditDigits(atual, novo, 4)
  {
  }

  /** Unlike the car form, this content forwards a full plate with its letters. */
  lemma PlacaComLetrasRepassada()
    ensures RepassarPlaca("ABC1D23") == Some("ABC1D23")
  {
  }
}
