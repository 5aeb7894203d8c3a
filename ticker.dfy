/**
 * `TelaEstacionamento`: the active-session screen. It checks the entry time
 * it was opened with, then ticks once a second: each tick shows the elapsed
 * time as `HH:MM:SS`, and every tenth tick (the first included) asks the
 * server for the price so far, which replaces the cost shown when it comes
 * back. "Pay and leave" navigates to the exit QR code when a token is saved.
 *
 * Time is whole seconds; the entry time arrives already parsed (ISO date
 * parsing is an input here), and the clock's reading is a tick's input.
 */
module ActiveSession {
  import opened Wrappers
  import opened Text
  import opened Remote
  import opened Ui

  // ---------------------------------------------------------------------------
  // Elapsed time, as `Duration.toHours()`, `toMinutes() % 60`, `seconds % 60`
  // ---------------------------------------------------------------------------

  /** Java's integer division, which truncates toward zero. */
  function Quot(a: int, b: int): (q: int)
    requires b > 0
    ensures a >= 0 ==> 0 <= a - b * q < b
    ensures a < 0 ==> -b < a - b * q <= 0
  {
    if a >= 0 then a / b else -((-a) / b)
  }

  /** Java's `%`, whose result takes the sign of the dividend. */
  function Rem(a: int, b: int): (r: int)
    requires b > 0
    ensures a >= 0 ==> 0 <= r < b
    ensures a < 0 ==> -b < r <= 0
    ensures (a - r) % b == 0
  {
    var q := Quot(a, b);
    DivUnique(b * q, b, q, 0);
    a - b * q
  }

  /** Division is determined by quotient and remainder. */
  lemma DivUnique(d: int, k: int, q: int, r: int)
    requires k > 0 && 0 <= r < k && d == k * q + r
    ensures d / k == q && d % k == r
  {
    var q0, r0 := d / k, d % k;
    assert k * (q - q0) == r0 - r;
    if q > q0 {
      MulAtLeast(k, q - q0);
    } else if q < q0 {
      MulAtLeast(k, q0 - q);
    }
  }

  lemma {:induction false} MulAtLeast(k: int, e: int)
    requires k > 0 && e >= 1
    ensures k * e >= k
    decreases e
  {
    if e > 1 {
      MulAtLeast(k, e - 1);
      assert k * e == k * (e - 1) + k;
    }
  }

  /** Dividing by 60 twice is dividing by 3600, for Java's truncating division too. */
  lemma QuotQuot(d: int)
    ensures Quot(Quot(d, 60), 60) == Quot(d, 3600)
  {
    var a := if d >= 0 then d else -d;
    var q1, r1 := a / 60, a % 60;
    var q2, r2 := q1 / 60, q1 % 60;
    assert a == 3600 * q2 + (60 * r2 + r1);
    DivUnique(a, 3600, q2, 60 * r2 + r1);
  }

  datatype Hms = Hms(h: int, m: int, s: int)

  /** The three fields the timer shows for a duration of `d` seconds. */
  function Split(d: int): (t: Hms)
    ensures t.h * 3600 + t.m * 60 + t.s == d
    ensures d >= 0 ==> t.h >= 0 && 0 <= t.m < 60 && 0 <= t.s < 60
    ensures d < 0 ==> t.h <= 0 && -60 < t.m <= 0 && -60 < t.s <= 0
  {
    QuotQuot(d);
    Hms(Quot(d, 3600), Rem(Quot(d, 60), 60), Rem(d, 60))
  }

  /** A non-negative duration has exactly one hours/minutes/seconds reading. */
  lemma SplitUnique(d: int, t: Hms)
    requires d >= 0 && t.h >= 0 && 0 <= t.m < 60 && 0 <= t.s < 60
    requires t.h * 3600 + t.m * 60 + t.s == d
    ensures Split(d) == t
  {
    DivUnique(d, 3600, t.h, t.m * 60 + t.s);
    DivUnique(d, 60, t.h * 60 + t.m, t.s);
    DivUnique(t.h * 60 + t.m, 60, t.h, t.m);
  }

  /** `String.format("%02d:%02d:%02d", horas, minutos, segundos)` */
  function FormatHms(t: Hms): (r: string)
    ensures |r| >= 8
    ensures 0 <= t.h < 100 && 0 <= t.m < 100 && 0 <= t.s < 100 ==>
      && |r| == 8 && r[2] == ':' && r[5] == ':'
      && AllDigits(r[0..2]) && AllDigits(r[3..5]) && AllDigits(r[6..8])
      && DecimalValue(r[0..2]) == t.h && DecimalValue(r[3..5]) == t.m && DecimalValue(r[6..8]) == t.s
  {
    var fh, fm, fs := Format02(t.h), Format02(t.m), Format02(t.s);
    var r := fh + ":" + fm + ":" + fs;
    if |fh| == 2 && |fm| == 2 then
      assert r[0..2] == fh && r[3..5] == fm && r[6..] == fs;
      r
    else r
  }

  /** The timer's text for a duration of `d` seconds: a minus sign shows up exactly when the duration is negative. */
  function FormatElapsed(d: int): (r: string)
    ensures |r| >= 8
    ensures d >= 0 ==> r[0] != '-'
    ensures d < 0 ==> '-' in r
  {
    var t := Split(d);
    FormatHmsSign(t);
    FormatHms(t)
  }

  /** A negative field puts a '-' in the text; a non-negative hour field does not start it with one. */
  lemma FormatHmsSign(t: Hms)
    ensures t.h >= 0 ==> FormatHms(t)[0] != '-'
    ensures t.h < 0 || t.m < 0 || t.s < 0 ==> '-' in FormatHms(t)
  {
    var fh, fm, fs := Format02(t.h), Format02(t.m), Format02(t.s);
    var r := FormatHms(t);
    assert r == fh + ":" + fm + ":" + fs;
    assert r[0] == fh[0];
    if t.m < 0 {
      assert r[|fh| + 1] == fm[0];
    }
    if t.s < 0 {
      assert r[|fh| + 1 + |fm| + 1] == fs[0];
    }
  }

  /** Under 100 hours the timer reads `HH:MM:SS`, and reading it back gives the duration. */
  lemma FormatElapsedReadsBack(d: int)
    requires 0 <= d < 360000
    ensures var r := FormatElapsed(d);
      && |r| == 8 && r[2] == ':' && r[5] == ':'
      && AllDigits(r[0..2]) && AllDigits(r[3..5]) && AllDigits(r[6..8])
      && DecimalValue(r[0..2]) * 3600 + DecimalValue(r[3..5]) * 60 + DecimalValue(r[6..8]) == d
  {
    var t := Split(d);
    var r := FormatElapsed(d);
    assert t.h < 100;
    var fh, fm, fs := Format02(t.h), Format02(t.m), Format02(t.s);
    assert r == fh + ":" + fm + ":" + fs;
    assert r[0..2] == fh && r[3..5] == fm && r[6..8] == fs;
  }

  lemma FormatElapsedExample()
    ensures FormatElapsed(125) == "00:02:05"
  {
    SplitUnique(125, Hms(0, 2, 5));
    assert Split(125) == Hms(0, 2, 5);
    FormatHmsExample();
  }

  lemma FormatHmsExample()
    ensures FormatHms(Hms(0, 2, 5)) == "00:02:05"
  {
    var f0, f2, f5 := Format02(0), Format02(2), Format02(5);
    assert f0 == "00" && f2 == "02" && f5 == "05";
  }

  /** Before its first pass the timer reads all zeros. */
  lemma TempoInicialZerado()
    ensures FormatHms(TempoInicial) == "00:00:00"
  {
    var f0 := Format02(0);
    assert f0 == "00";
  }

  // ---------------------------------------------------------------------------
  // Screen state
  // ---------------------------------------------------------------------------

  /** What the screen shows before the timer starts. */
  datatype Abertura = ErroTela(mensagem: string) | Cronometro(entrada: int)

  const HorarioNaoEncontrado: string := "Erro: Horário de entrada não encontrado."
  const HorarioInvalido: string := "Erro: Formato de horário inválido."

  /**
   * The screen's checks on its argument: `entradaLida` is what
   * `LocalDateTime.parse` made of the string, or null when it threw.
   */
  function Abrir(horarioEntrada: Option<string>, entradaLida: Option<int>): (a: Abertura)
    ensures IsNullOrBlank(horarioEntrada) ==> a == ErroTela(HorarioNaoEncontrado)
    ensures !IsNullOrBlank(horarioEntrada) && entradaLida.None? ==> a == ErroTela(HorarioInvalido)
    ensures a.Cronometro? <==> !IsNullOrBlank(horarioEntrada) && entradaLida.Some?
    ensures a.Cronometro? ==> a.entrada == entradaLida.value
  {
    if IsNullOrBlank(horarioEntrada) then ErroTela(HorarioNaoEncontrado)
    else if entradaLida.None? then ErroTela(HorarioInvalido)
    else Cronometro(entradaLida.value)
  }

  /** The cost card: the placeholder `"R$ --,--"` until the server has given a price. */
  datatype Custo = Placeholder | Valor(valorPrevisto: int)

  /** `"00:00:00"`, what the timer shows before its first pass. */
  const TempoInicial: Hms := Hms(0, 0, 0)

  /**
   * `buscarPrecoDoBackend`: the price, or null without a token, on a failed
   * call, or when the body lacks `valor_previsto` (the reply's body is
   * `Some(None)` then).
   */
  function BuscarPreco(token: Option<string>, reply: Reply<Option<int>>): (v: Option<int>)
    ensures v.Some? <==> token.Some? && reply.HttpOk? && reply.body.Some? && reply.body.value.Some?
    ensures v.Some? ==> v.value == reply.body.value.value
  {
    if token.None? then None
    else match reply
      case HttpOk(Some(Some(valor))) => Some(valor)
      case _ => None
  }

  /** One pass of the timer loop: the clock's reading and the outcome of the price request launched then, if any. */
  datatype Tique = Tique(agora: int, token: Option<string>, reply: Reply<Option<int>>)

  /** Whether the pass with counter `a` launches a price request. */
  function Busca(a: nat): (b: bool)
    ensures b <==> Rem(a, 10) == 0
    ensures a < 10 ==> (b <==> a == 0)
  {
    a % 10 == 0
  }

  /** The cost after pass `a`: the price it fetched, if it fetched one, else the cost before. */
  function CustoPasso(c: Custo, a: nat, t: Tique): (r: Custo)
    ensures r == c || r.Valor?
    ensures r != c ==> Busca(a) && t.token.Some? && BuscarPreco(t.token, t.reply).Some? && r == Valor(BuscarPreco(t.token, t.reply).value)
    ensures Busca(a) && BuscarPreco(t.token, t.reply).Some? ==> r == Valor(BuscarPreco(t.token, t.reply).value)
  {
    var v := BuscarPreco(t.token, t.reply);
    if Busca(a) && v.Some? then Valor(v.value) else c
  }

  /** The cost shown after the passes `ts`, starting from cost `c` and counter `a`. */
  function CustoApos(c: Custo, a: nat, ts: seq<Tique>): (r: Custo)
    ensures r.Placeholder? ==> c.Placeholder?
    ensures r != c ==> r.Valor?
    decreases |ts|
  {
    if ts == [] then c else CustoApos(CustoPasso(c, a, ts[0]), a + 1, ts[1..])
  }

  /** The price pass `a` brings back: only a fetching pass whose request returned one has it. */
  function PrecoNoPasso(a: nat, t: Tique): Option<int>
  {
    if Busca(a) then BuscarPreco(t.token, t.reply) else None
  }

  /** The price each of the passes `ts` (counters `a ..`) brings back, in order. */
  function PrecosDosPassos(a: nat, ts: seq<Tique>): (ps: seq<Option<int>>)
    ensures |ps| == |ts|
  {
    seq(|ts|, k requires 0 <= k < |ts| => PrecoNoPasso(a + k, ts[k]))
  }

  /** Reference reading of a run of passes, scanned from the end: the last price brought back, if any. */
  function UltimoPreco(ps: seq<Option<int>>): (r: Option<int>)
    ensures r.None? <==> forall k :: 0 <= k < |ps| ==> ps[k].None?
  {
    if ps == [] then None
    else if ps[|ps| - 1].Some? then ps[|ps| - 1]
    else
      var r' := UltimoPreco(ps[..|ps| - 1]);
      assert forall j :: 0 <= j < |ps| - 1 ==> ps[..|ps| - 1][j] == ps[j];
      r'
  }

  /** When pass `k` brought back a price and no later pass did, that price is the last one. */
  lemma {:induction false} UltimoPrecoDoPasso(ps: seq<Option<int>>, k: nat)
    requires k < |ps| && ps[k].Some?
    requires forall j :: k < j < |ps| ==> ps[j].None?
    ensures UltimoPreco(ps) == ps[k]
  {
    var n := |ps| - 1;
    if k < n {
      assert ps[..n][k] == ps[k];
      forall j | k < j < n ensures ps[..n][j].None? {
        assert ps[..n][j] == ps[j];
      }
      UltimoPrecoDoPasso(ps[..n], k);
    }
  }

  /** One pass more at the end of `ts` acts on the cost those passes left. */
  lemma {:induction false} CustoAposSnoc(c: Custo, a: nat, ts: seq<Tique>, t: Tique)
    ensures CustoApos(c, a, ts + [t]) == CustoPasso(CustoApos(c, a, ts), a + |ts|, t)
    decreases |ts|
  {
    if ts != [] {
      assert (ts + [t])[1..] == ts[1..] + [t];
      CustoAposSnoc(CustoPasso(c, a, ts[0]), a + 1, ts[1..], t);
    }
  }

  /**
   * The cost after the passes `ts` is the price of the last fetching pass whose
   * request returned one, and the cost before them when no such pass did.
   */
  lemma {:induction false} CustoAposUltimoPreco(c: Custo, a: nat, ts: seq<Tique>)
    ensures UltimoPreco(PrecosDosPassos(a, ts)).None? ==> CustoApos(c, a, ts) == c
    ensures UltimoPreco(PrecosDosPassos(a, ts)).Some? ==> CustoApos(c, a, ts) == Valor(UltimoPreco(PrecosDosPassos(a, ts)).value)
    decreases |ts|
  {
    if ts != [] {
      var n := |ts| - 1;
      var ps := PrecosDosPassos(a, ts);
      assert ts == ts[..n] + [ts[n]];
      assert PrecosDosPassos(a, ts[..n]) == ps[..n];
      assert ps[n] == PrecoNoPasso(a + n, ts[n]);
      CustoAposSnoc(c, a, ts[..n], ts[n]);
      CustoAposUltimoPreco(c, a, ts[..n]);
    }
  }

  /** How many price requests passes `a0 .. a0 + n - 1` launch. */
  function Buscas(a0: nat, n: nat): (r: nat)
    ensures r <= n
    ensures n > 0 && Busca(a0) ==> r >= 1
  {
    if n == 0 then 0 else Buscas(a0, n - 1) + (if Busca(a0 + n - 1) then 1 else 0)
  }

  /** From the first pass on, n passes launch ⌈n / 10⌉ price requests. */
  lemma {:induction false} BuscasDesdeOInicio(n: nat)
    ensures Buscas(0, n) == (n + 9) / 10
  {
    if n > 0 {
      BuscasDesdeOInicio(n - 1);
      var k := n - 1;
      DivUnique(k + 9, 10, (k + 9) / 10, (k + 9) % 10);
      if k % 10 == 0 {
        DivUnique(k, 10, k / 10, 0);
        DivUnique(k + 9, 10, k / 10, 9);
        DivUnique(k + 10, 10, k / 10 + 1, 0);
      } else {
        DivUnique(k, 10, k / 10, k % 10);
        DivUnique(k + 9, 10, k / 10 + 1, k % 10 - 1);
        DivUnique(k + 10, 10, k / 10 + 1, k % 10);
      }
    }
  }

  /** The placeholder stays exactly as long as no request launched so far has returned a price. */
  lemma {:induction false} PlaceholderEnquantoSemPreco(a: nat, ts: seq<Tique>)
    ensures CustoApos(Placeholder, a, ts) == Placeholder <==>
      forall k :: 0 <= k < |ts| && Busca(a + k) ==> BuscarPreco(ts[k].token, ts[k].reply).None?
    decreases |ts|
  {
    if ts != [] {
      var v := BuscarPreco(ts[0].token, ts[0].reply);
      PlaceholderEnquantoSemPreco(a + 1, ts[1..]);
      if Busca(a) && v.Some? {
        ValorPermanece(v.value, a + 1, ts[1..]);
      } else {
        forall k | 1 <= k < |ts| ensures ts[k] == ts[1..][k - 1] && a + k == (a + 1) + (k - 1) {
        }
      }
    }
  }

  /** Once a price is shown, the card never goes back to the placeholder. */
  lemma {:induction false} ValorPermanece(v: int, a: nat, ts: seq<Tique>)
    ensures CustoApos(Valor(v), a, ts).Valor?
    decreases |ts|
  {
    if ts != [] {
      ValorPermanece(CustoPasso(Valor(v), a, ts[0]).valorPrevisto, a + 1, ts[1..]);
    }
  }

  /** Without a saved token no price ever arrives. */
  lemma SemTokenSemPreco(a: nat, ts: seq<Tique>)
    requires forall k :: 0 <= k < |ts| ==> ts[k].token.None?
    ensures CustoApos(Placeholder, a, ts) == Placeholder
  {
    PlaceholderEnquantoSemPreco(a, ts);
  }

  const SessaoInvalida: string := "Sessão inválida. Por favor, faça login novamente."
  const RotaQrSaida: string := "exibir_qrcode_saida/"

  /** `realizarCheckout`: to the exit QR code with the token, or a toast; the completion callback always runs. */
  function Checkout(token: Option<string>): (fx: seq<Effect>)
    ensures |fx| == 2 && fx[1] == Completed
    ensures token.Some? <==> fx[0].Navigate?
    ensures token.Some? ==> fx[0] == Navigate(RotaQrSaida + token.value)
    ensures token.None? ==> fx[0] == Toast(SessaoInvalida)
  {
    match token
    case Some(t) => [Navigate(RotaQrSaida + t), Completed]
    case None => [Toast(SessaoInvalida), Completed]
  }

  /** The exit QR screen reads back exactly the saved token from its route; two tokens never share a route. */
  lemma CheckoutRotaTrazToken(t: string, u: string)
    ensures Checkout(Some(t))[0].route[..|RotaQrSaida|] == RotaQrSaida
    ensures Checkout(Some(t))[0].route[|RotaQrSaida|..] == t
    ensures Checkout(Some(t)) == Checkout(Some(u)) ==> t == u
  {
    var r := Checkout(Some(t))[0].route;
    assert r == RotaQrSaida + t;
    if Checkout(Some(t)) == Checkout(Some(u)) {
      assert RotaQrSaida + u == r;
      assert u == r[|RotaQrSaida|..];
    }
  }

  class ActiveSessionScreen {
    const entrada: int
    /** The hours, minutes and seconds the timer text shows: the text is `FormatHms(tempo)`. */
    var tempo: Hms
    var custo: Custo
    /** The loop counter `a`. */
    var a: nat
    var buscasLancadas: nat
    var isLoading: bool

    constructor (entrada: int)
      ensures this.entrada == entrada
      ensures tempo == TempoInicial && custo == Placeholder && a == 0
      ensures buscasLancadas == 0 && !isLoading
    {
      this.entrada := entrada;
      tempo, custo, a := TempoInicial, Placeholder, 0;
      buscasLancadas, isLoading := 0, false;
    }

    /** One pass of the `while (true)` loop. */
    method Tick(t: Tique)
      modifies this
      ensures tempo == Split(t.agora - entrada)
      ensures a == old(a) + 1
      ensures custo == CustoPasso(old(custo), old(a), t)
      ensures buscasLancadas == old(buscasLancadas) + (if Busca(old(a)) then 1 else 0)
      ensures isLoading == old(isLoading)
    {
      tempo := Split(t.agora - entrada);
      if a % 10 == 0 {
        buscasLancadas := buscasLancadas + 1;
        var valor := BuscarPreco(t.token, t.reply);
        if valor.Some? {
          custo := Valor(valor.value);
        }
      }
      a := a + 1;
    }

    /** The timer loop over a finite stretch of passes. */
    method Run(ts: seq<Tique>)
      modifies this
      ensures a == old(a) + |ts|
      ensures custo == CustoApos(old(custo), old(a), ts)
      ensures buscasLancadas == old(buscasLancadas) + Buscas(old(a), |ts|)
      ensures ts != [] ==> tempo == Split(ts[|ts| - 1].agora - entrada)
      ensures ts == [] ==> tempo == old(tempo)
    {
      ghost var a0, c0, b0 := a, custo, buscasLancadas;
      var i := 0;
      assert ts[0..] == ts;
      while i < |ts|
        invariant 0 <= i <= |ts|
        invariant a == a0 + i
        invariant CustoApos(custo, a, ts[i..]) == CustoApos(c0, a0, ts)
        invariant buscasLancadas == b0 + Buscas(a0, i)
        invariant i > 0 ==> tempo == Split(ts[i - 1].agora - entrada)
        invariant i == 0 ==> tempo == old(tempo)
      {
        ghost var rest := ts[i..];
        assert rest[0] == ts[i] && rest[1..] == ts[i + 1..];
        ghost var c1 := CustoPasso(custo, a, ts[i]);
        assert CustoApos(custo, a, rest) == CustoApos(c1, a + 1, ts[i + 1..]);
        Tick(ts[i]);
        i := i + 1;
      }
      assert ts[i..] == [];
    }

    /** "PAGAR E SAIR": ignored while disabled; otherwise loading, checkout, and completion. */
    method PagarESair(token: Option<string>) returns (fx: seq<Effect>)
      modifies this
      ensures old(isLoading) ==> fx == [] && isLoading
      ensures !old(isLoading) ==> fx == Checkout(token) && !isLoading
      ensures custo == old(custo) && a == old(a) && tempo == old(tempo)
    {
      if isLoading {
        return [];
      }
      isLoading := true;
      fx := Checkout(token);
      isLoading := false;
    }
  }
}
