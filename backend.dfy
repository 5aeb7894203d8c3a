/**
 * The FastAPI backend: registration and password rules, login summary, card
 * listing with masked numbers, and the parking-session table with its
 * check-in / checkout handlers and the hourly tariff.
 *
 * The MySQL tables `usuarios`, `cartoes` and `sessoes` are sequences held by
 * one `ParkingDb` object, in insertion order; `AUTO_INCREMENT` is a counter
 * per table. Timestamps are whole seconds and money is whole currency units.
 */
module Backend {
  import opened Wrappers

  // ---------------------------------------------------------------------------
  // Tariff
  // ---------------------------------------------------------------------------

  const SecondsPerHour: int := 3600
  const HourlyRate: int := 5

  /**
   * Hours charged for a stay of `seconds`: `max(1, (seconds + 3599) // 3600)`.
   * Python's `//` floors, and so does Dafny's `/` for a positive divisor.
   */
  function BilledHours(seconds: int): (h: int)
    ensures h >= 1
    ensures seconds <= SecondsPerHour ==> h == 1
    ensures seconds > 0 ==> (h - 1) * SecondsPerHour < seconds <= h * SecondsPerHour
  {
    var q := (seconds + 3599) / 3600;
    if q < 1 then 1 else q
  }

  /** The amount charged at checkout: the hourly rate times the billed hours. */
  function Charge(seconds: int): (c: int)
    ensures c >= HourlyRate && c % HourlyRate == 0
    ensures c == HourlyRate * BilledHours(seconds)
  {
    BilledHours(seconds) * HourlyRate
  }

  /** Any stay in (3600(k-1), 3600k] is billed exactly k hours. */
  lemma BilledHoursExact(seconds: int, k: int)
    requires k >= 1 && (k - 1) * SecondsPerHour < seconds <= k * SecondsPerHour
    ensures BilledHours(seconds) == k
  {
  }

  /** A longer stay is never cheaper. */
  lemma ChargeMonotone(s1: int, s2: int)
    requires s1 <= s2
    ensures Charge(s1) <= Charge(s2)
  {
  }

  // ---------------------------------------------------------------------------
  // Registration rules and card masking
  // ---------------------------------------------------------------------------

  /** FastAPI's `HTTPException(status_code, detail)`. */
  datatype HttpException = HttpException(statusCode: int, detail: string)

  /** A handler either returns its body or raises. */
  datatype Response<T> = Ok(value: T) | Raised(error: HttpException)

  const SenhaCurta := HttpException(422, "A senha deve ter pelo menos 6 caracteres.")
  const SenhaLonga := HttpException(422, "A senha excede o limite de tamanho para criptografia.")

  /** Bytes of one character in UTF-8. */
  function Utf8Width(c: char): (w: nat)
    ensures 1 <= w <= 4
  {
    if c as int < 0x80 then 1
    else if c as int < 0x800 then 2
    else if c as int < 0x1_0000 then 3
    else 4
  }

  /** `len(s.encode('utf-8'))` */
  function Utf8Length(s: string): (n: nat)
    ensures |s| <= n <= 4 * |s|
  {
    if s == [] then 0 else Utf8Width(s[0]) + Utf8Length(s[1..])
  }

  /** The two checks `cadastrar_usuario` makes before hashing: `None` when the password passes. */
  function ValidarSenha(senha: string): (r: Option<HttpException>)
    ensures r.None? <==> 6 <= |senha| && Utf8Length(senha) <= 72
    ensures |senha| < 6 ==> r == Some(SenhaCurta)
    ensures 6 <= |senha| && Utf8Length(senha) > 72 ==> r == Some(SenhaLonga)
  {
    if |senha| < 6 then Some(SenhaCurta)
    else if Utf8Length(senha) > 72 then Some(SenhaLonga)
    else None
  }

  /** An accepted password has between 6 and 72 characters. */
  lemma AcceptedPasswordLength(senha: string)
    requires ValidarSenha(senha).None?
    ensures 6 <= |senha| <= 72
  {
  }

  /** A string of n copies of one character takes n times its width in UTF-8. */
  lemma {:induction false} Utf8LengthUniform(c: char, n: nat)
    ensures Utf8Length(seq(n, _ => c)) == n * Utf8Width(c)
  {
    if n > 0 {
      var s := seq(n, _ => c);
      assert s[1..] == seq(n - 1, _ => c);
      Utf8LengthUniform(c, n - 1);
    }
  }

  /** For ASCII text the byte limit is the character limit. */
  lemma {:induction false} Utf8LengthAscii(s: string)
    requires forall i :: 0 <= i < |s| ==> s[i] as int < 0x80
    ensures Utf8Length(s) == |s|
  {
    if s != [] {
      Utf8LengthAscii(s[1..]);
    }
  }

  /** Nineteen four-byte characters are refused as too long although they are only nineteen characters. */
  lemma NineteenEmojiRejected()
    ensures ValidarSenha(seq(19, _ => '\U{1F600}')) == Some(SenhaLonga)
    ensures ValidarSenha(seq(18, _ => '\U{1F600}')).None?
  {
    Utf8LengthUniform('\U{1F600}', 19);
    Utf8LengthUniform('\U{1F600}', 18);
  }

  const MaskPrefix: string := "**** **** **** "

  /** The card listing's rewrite of `numero`: longer than 4 characters becomes the mask plus its last 4. */
  function MascararNumero(numero: string): (r: string)
    ensures |numero| <= 4 ==> r == numero
    ensures |numero| > 4 ==> |r| == 19 && r[..15] == MaskPrefix
  {
    if |numero| > 4 then MaskPrefix + numero[|numero| - 4..] else numero
  }

  /** The mask keeps the last four characters. */
  lemma MaskKeepsLastFour(numero: string)
    requires |numero| >= 4
    ensures var r := MascararNumero(numero); |r| >= 4 && r[|r| - 4..] == numero[|numero| - 4..]
  {
  }

  /** Two numbers that end alike are listed alike: nothing but the last four shows. */
  lemma MaskRevealsOnlyLastFour(a: string, b: string)
    requires |a| > 4 && |b| > 4 && a[|a| - 4..] == b[|b| - 4..]
    ensures MascararNumero(a) == MascararNumero(b)
  {
  }

  /** Masking an already masked number changes nothing. */
  lemma MaskIdempotent(numero: string)
    ensures MascararNumero(MascararNumero(numero)) == MascararNumero(numero)
  {
    if |numero| > 4 {
      var r := MascararNumero(numero);
      assert r[|r| - 4..] == numero[|numero| - 4..];
    }
  }

  // ---------------------------------------------------------------------------
  // Tables
  // ---------------------------------------------------------------------------

  datatype Usuario = Usuario(id: int, nome: string, email: string, senhaHashed: string)

  datatype Cartao = Cartao(id: int, numero: string, nome: string, validade: string, cvv: string, usuarioId: int)

  /** A row of the card listing (`CartaoBase`): no CVV, no owner. */
  datatype CartaoBase = CartaoBase(id: int, numero: string, nome: string, validade: string)

  datatype StatusSessao = Ativa | Finalizada

  datatype Sessao = Sessao(
    id: int,
    usuarioId: int,
    horarioEntrada: int,
    horarioSaida: Option<int>,
    valorPago: Option<int>,
    status: StatusSessao)

  /** `active_session_info`: the active session's id and entry time. */
  datatype ActiveSessionInfo = ActiveSessionInfo(sessaoId: int, horarioEntrada: int)

  /** The login response without its JWT (`access_token`, `token_type`). */
  datatype LoginSummary = LoginSummary(userId: int, userName: string, cardCount: nat, activeSessionInfo: Option<ActiveSessionInfo>)

  /** The check-in response: `sessao_id` and `horario_entrada`. */
  datatype Entrada = Entrada(sessaoId: int, horarioEntrada: int)

  const SessaoJaAtiva := HttpException(409, "Usuário já possui uma sessão de estacionamento ativa.")
  const NenhumaSessaoAtiva := HttpException(404, "Nenhuma sessão ativa encontrada.")
  const EmailDuplicado := HttpException(409, "Este email já está cadastrado.")
  const CredenciaisInvalidas := HttpException(401, "Email ou senha incorretos")

  predicate IsActiveFor(s: Sessao, u: int) {
    s.usuarioId == u && s.status == Ativa
  }

  /** `SELECT ... FROM sessoes WHERE usuario_id = u AND status = 'ATIVA'` then `fetchone()`: the first such row. */
  function ActiveIndex(ss: seq<Sessao>, u: int): (r: Option<nat>)
    ensures r.Some? ==> r.value < |ss| && IsActiveFor(ss[r.value], u)
    ensures r.Some? ==> forall j :: 0 <= j < r.value ==> !IsActiveFor(ss[j], u)
    ensures r.None? <==> forall j :: 0 <= j < |ss| ==> !IsActiveFor(ss[j], u)
  {
    if ss == [] then None
    else if IsActiveFor(ss[0], u) then Some(0)
    else match ActiveIndex(ss[1..], u)
      case None => None
      case Some(i) => Some(i + 1)
  }

  /** Each user has at most one `ATIVA` session. */
  ghost predicate AtMostOneActive(ss: seq<Sessao>) {
    forall i, j ::
      (0 <= i < |ss| && 0 <= j < |ss| && ss[i].status == Ativa && ss[j].status == Ativa
       && ss[i].usuarioId == ss[j].usuarioId) ==> i == j
  }

  /** An active session has no exit time and no charge; a finished one has both. */
  predicate WellFormedSessao(s: Sessao) {
    if s.status == Ativa then s.horarioSaida.None? && s.valorPago.None?
    else s.horarioSaida.Some? && s.valorPago.Some?
  }

  /** `SELECT COUNT(*) FROM cartoes WHERE usuario_id = u` */
  function CardCount(cs: seq<Cartao>, u: int): (n: nat)
    ensures n <= |cs|
  {
    if cs == [] then 0 else (if cs[0].usuarioId == u then 1 else 0) + CardCount(cs[1..], u)
  }

  /** `SELECT ... FROM cartoes WHERE usuario_id = u`, in table order. */
  function CartoesDoUsuario(cs: seq<Cartao>, u: int): (r: seq<Cartao>)
    ensures forall c :: c in r <==> c in cs && c.usuarioId == u
  {
    if cs == [] then []
    else (if cs[0].usuarioId == u then [cs[0]] else []) + CartoesDoUsuario(cs[1..], u)
  }

  /** The count reported at login is the length of the listing. */
  lemma {:induction false} CardCountIsListingLength(cs: seq<Cartao>, u: int)
    ensures CardCount(cs, u) == |CartoesDoUsuario(cs, u)|
  {
    if cs != [] {
      CardCountIsListingLength(cs[1..], u);
    }
  }

  /** `SELECT ... FROM usuarios WHERE email = e` then `fetchone()`. */
  function UserByEmail(us: seq<Usuario>, email: string): (r: Option<Usuario>)
    ensures r.Some? ==> r.value in us && r.value.email == email
    ensures r.None? <==> forall i :: 0 <= i < |us| ==> us[i].email != email
  {
    if us == [] then None
    else if us[0].email == email then Some(us[0])
    else UserByEmail(us[1..], email)
  }

  /** The listing's row for one card, before masking. */
  function Publico(c: Cartao): CartaoBase {
    CartaoBase(c.id, c.numero, c.nome, c.validade)
  }

  /** `SET horario_saida, valor_pago, status = 'FINALIZADA'`: those three columns change, the rest of the row stays. */
  function Finalizar(s: Sessao, saida: int, valor: int): (r: Sessao)
    ensures r.status == Finalizada && r.horarioSaida == Some(saida) && r.valorPago == Some(valor)
    ensures r.id == s.id && r.usuarioId == s.usuarioId && r.horarioEntrada == s.horarioEntrada
    ensures WellFormedSessao(r)
  {
    s.(horarioSaida := Some(saida), valorPago := Some(valor), status := Finalizada)
  }

  /** Finishing a user's active session leaves that user with none, and everyone else's as it was. */
  lemma FinalizeClearsActive(ss: seq<Sessao>, u: int, saida: int, valor: int)
    requires AtMostOneActive(ss)
    requires ActiveIndex(ss, u).Some?
    ensures var i := ActiveIndex(ss, u).value;
      var ss' := ss[i := Finalizar(ss[i], saida, valor)];
      && AtMostOneActive(ss')
      && ActiveIndex(ss', u).None?
      && forall v :: v != u ==> ActiveIndex(ss', v) == ActiveIndex(ss, v)
  {
    var i := ActiveIndex(ss, u).value;
    var ss' := ss[i := Finalizar(ss[i], saida, valor)];
    forall v | v != u ensures ActiveIndex(ss', v) == ActiveIndex(ss, v) {
      ActiveIndexFrame(ss, ss', v);
    }
  }

  /** Two tables that agree on who is active for `v`, row by row, give the same answer for `v`. */
  lemma {:induction false} ActiveIndexFrame(ss: seq<Sessao>, ss': seq<Sessao>, v: int)
    requires |ss| == |ss'|
    requires forall j :: 0 <= j < |ss| ==> (IsActiveFor(ss[j], v) <==> IsActiveFor(ss'[j], v))
    ensures ActiveIndex(ss', v) == ActiveIndex(ss, v)
  {
    if ss != [] {
      ActiveIndexFrame(ss[1..], ss'[1..], v);
    }
  }

  /** Inserting an active session for a user with none keeps at most one per user. */
  lemma InsertActiveKeepsOne(ss: seq<Sessao>, s: Sessao)
    requires AtMostOneActive(ss)
    requires s.status == Ativa && ActiveIndex(ss, s.usuarioId).None?
    ensures AtMostOneActive(ss + [s])
  {
    var ss' := ss + [s];
    forall i, j | 0 <= i < |ss'| && 0 <= j < |ss'| && ss'[i].status == Ativa && ss'[j].status == Ativa
      && ss'[i].usuarioId == ss'[j].usuarioId
      ensures i == j
    {
      if i < |ss| && j < |ss| {
        assert ss'[i] == ss[i] && ss'[j] == ss[j];
      }
    }
  }

  /** The inserted session is the one later found active for its user. */
  lemma InsertActiveFound(ss: seq<Sessao>, s: Sessao)
    requires s.status == Ativa && ActiveIndex(ss, s.usuarioId).None?
    ensures ActiveIndex(ss + [s], s.usuarioId) == Some(|ss|)
  {
    var ss' := ss + [s];
    assert IsActiveFor(ss'[|ss|], s.usuarioId);
    forall j | 0 <= j < |ss| ensures !IsActiveFor(ss'[j], s.usuarioId) {
      assert ss'[j] == ss[j];
    }
  }

  /** Session ids grow with insertion order (`AUTO_INCREMENT`), so each id names one row. */
  ghost predicate IdsIncreasing(ss: seq<Sessao>) {
    forall i, j :: 0 <= i < j < |ss| ==> ss[i].id < ss[j].id
  }

  /** `UPDATE sessoes SET ... WHERE id = sid`: every row with that id is finished. */
  function FinalizarWhereId(ss: seq<Sessao>, sid: int, saida: int, valor: int): (r: seq<Sessao>)
    ensures |r| == |ss|
    ensures forall k :: 0 <= k < |ss| && ss[k].id != sid ==> r[k] == ss[k]
    ensures forall k :: 0 <= k < |ss| && ss[k].id == sid ==>
      r[k].status == Finalizada && r[k].id == sid && r[k].usuarioId == ss[k].usuarioId
    ensures forall k :: 0 <= k < |r| ==> r[k].status != Ativa || r[k].id != sid
  {
    seq(|ss|, k requires 0 <= k < |ss| => if ss[k].id == sid then Finalizar(ss[k], saida, valor) else ss[k])
  }

  /** With distinct ids the update by id touches exactly the row that carries it. */
  lemma FinalizarWhereIdIsPointUpdate(ss: seq<Sessao>, i: nat, saida: int, valor: int)
    requires IdsIncreasing(ss) && i < |ss|
    ensures FinalizarWhereId(ss, ss[i].id, saida, valor) == ss[i := Finalizar(ss[i], saida, valor)]
  {
    var r := FinalizarWhereId(ss, ss[i].id, saida, valor);
    forall k | 0 <= k < |ss| ensures r[k] == ss[i := Finalizar(ss[i], saida, valor)][k] {
      if k < i {
        assert ss[k].id < ss[i].id;
      } else if k > i {
        assert ss[i].id < ss[k].id;
      }
    }
  }

  /** Finishing a row keeps ids, their bound and the status/exit/charge consistency. */
  lemma FinalizeKeepsTable(ss: seq<Sessao>, i: nat, saida: int, valor: int, next: int)
    requires i < |ss| && IdsIncreasing(ss)
    requires forall k :: 0 <= k < |ss| ==> ss[k].id < next
    requires forall k :: 0 <= k < |ss| ==> WellFormedSessao(ss[k])
    ensures var ss' := ss[i := Finalizar(ss[i], saida, valor)];
      && IdsIncreasing(ss')
      && (forall k :: 0 <= k < |ss'| ==> ss'[k].id < next)
      && (forall k :: 0 <= k < |ss'| ==> WellFormedSessao(ss'[k]))
  {
  }

  // ---------------------------------------------------------------------------
  // The store and the route handlers
  // ---------------------------------------------------------------------------

  class ParkingDb {
    var usuarios: seq<Usuario>
    var cartoes: seq<Cartao>
    var sessoes: seq<Sessao>
    var nextUsuarioId: int
    var nextCartaoId: int
    var nextSessaoId: int

    /** The table constraints the handlers rely on. */
    ghost predicate Valid()
      reads this
    {
      && (forall i, j :: 0 <= i < j < |usuarios| ==> usuarios[i].email != usuarios[j].email)
      && IdsIncreasing(sessoes)
      && (forall i :: 0 <= i < |sessoes| ==> sessoes[i].id < nextSessaoId)
      && (forall i :: 0 <= i < |sessoes| ==> WellFormedSessao(sessoes[i]))
      && AtMostOneActive(sessoes)
    }

    constructor ()
      ensures Valid()
      ensures usuarios == [] && cartoes == [] && sessoes == []
    {
      usuarios, cartoes, sessoes := [], [], [];
      nextUsuarioId, nextCartaoId, nextSessaoId := 1, 1, 1;
    }

    /**
     * `POST /usuarios/cadastrar`. The bcrypt hash of `senha` is the input
     * `senhaHashed`; a duplicate email is the unique-key violation (1062).
     */
    method CadastrarUsuario(nome: string, email: string, senha: string, senhaHashed: string)
      returns (r: Response<string>)
      requires Valid()
      modifies this
      ensures Valid()
      ensures cartoes == old(cartoes) && sessoes == old(sessoes) && nextSessaoId == old(nextSessaoId)
      ensures ValidarSenha(senha).Some? ==>
                r == Raised(ValidarSenha(senha).value) && usuarios == old(usuarios)
      ensures ValidarSenha(senha).None? && UserByEmail(old(usuarios), email).Some? ==>
                r == Raised(EmailDuplicado) && usuarios == old(usuarios)
      ensures ValidarSenha(senha).None? && UserByEmail(old(usuarios), email).None? ==>
                && r == Ok("Usuário criado com sucesso!")
                && usuarios == old(usuarios) + [Usuario(old(nextUsuarioId), nome, email, senhaHashed)]
    {
      var invalida := ValidarSenha(senha);
      if invalida.Some? {
        return Raised(invalida.value);
      }
      if UserByEmail(usuarios, email).Some? {
        return Raised(EmailDuplicado);
      }
      usuarios := usuarios + [Usuario(nextUsuarioId, nome, email, senhaHashed)];
      nextUsuarioId := nextUsuarioId + 1;
      r := Ok("Usuário criado com sucesso!");
    }

    /**
     * `POST /usuarios/login`: the credentials check (`verificar` stands for
     * bcrypt's `verify(plain, hashed)`), then the card count and the active
     * session, if any.
     */
    method LoginUsuario(email: string, senha: string, verificar: (string, string) -> bool)
      returns (r: Response<LoginSummary>)
      ensures var user := UserByEmail(usuarios, email);
        if user.None? || !verificar(senha, user.value.senhaHashed) then r == Raised(CredenciaisInvalidas)
        else
          && r.Ok?
          && r.value.userId == user.value.id && r.value.userName == user.value.nome
          && r.value.cardCount == |CartoesDoUsuario(cartoes, user.value.id)|
          && (r.value.activeSessionInfo.Some? <==> ActiveIndex(sessoes, user.value.id).Some?)
          && (r.value.activeSessionInfo.Some? ==>
                var s := sessoes[ActiveIndex(sessoes, user.value.id).value];
                r.value.activeSessionInfo.value == ActiveSessionInfo(s.id, s.horarioEntrada))
    {
      var user := UserByEmail(usuarios, email);
      if user.None? || !verificar(senha, user.value.senhaHashed) {
        return Raised(CredenciaisInvalidas);
      }
      var u := user.value;
      var cardCount := CardCount(cartoes, u.id);
      CardCountIsListingLength(cartoes, u.id);
      var info: Option<ActiveSessionInfo> := None;
      var ativa := ActiveIndex(sessoes, u.id);
      if ativa.Some? {
        var s := sessoes[ativa.value];
        info := Some(ActiveSessionInfo(s.id, s.horarioEntrada));
      }
      r := Ok(LoginSummary(u.id, u.nome, cardCount, info));
    }

    /** `GET /cartoes`: the user's cards, each number rewritten in place by the mask. */
    method ListarCartoes(u: int) returns (rows: seq<CartaoBase>)
      ensures var sel := CartoesDoUsuario(cartoes, u);
        && |rows| == |sel|
        && forall k :: 0 <= k < |rows| ==>
             rows[k] == Publico(sel[k]).(numero := MascararNumero(sel[k].numero))
    {
      var sel := CartoesDoUsuario(cartoes, u);
      rows := seq(|sel|, k requires 0 <= k < |sel| => Publico(sel[k]));
      var i := 0;
      while i < |rows|
        invariant 0 <= i <= |rows| == |sel|
        invariant forall k :: 0 <= k < i ==> rows[k] == Publico(sel[k]).(numero := MascararNumero(sel[k].numero))
        invariant forall k :: i <= k < |rows| ==> rows[k] == Publico(sel[k])
      {
        var cartao := rows[i];
        if |cartao.numero| > 4 {
          rows := rows[i := cartao.(numero := MaskPrefix + cartao.numero[|cartao.numero| - 4..])];
        }
        assert rows[i] == Publico(sel[i]).(numero := MascararNumero(sel[i].numero));
        i := i + 1;
      }
    }

    /** `POST /cartoes/cadastrar`: the card is stored under the caller's id. */
    method CadastrarCartao(u: int, numero: string, nome: string, validade: string, cvv: string)
      returns (r: Response<string>)
      requires Valid()
      modifies this
      ensures Valid()
      ensures usuarios == old(usuarios) && sessoes == old(sessoes)
      ensures cartoes == old(cartoes) + [Cartao(old(nextCartaoId), numero, nome, validade, cvv, u)]
      ensures r == Ok("Cartão cadastrado.")
    {
      cartoes := cartoes + [Cartao(nextCartaoId, numero, nome, validade, cvv, u)];
      nextCartaoId := nextCartaoId + 1;
      r := Ok("Cartão cadastrado.");
    }

    /** `POST /sessoes/checkin` at time `agora`: refused when the user already has an active session. */
    method RegistrarEntrada(u: int, agora: int) returns (r: Response<Entrada>)
      requires Valid()
      modifies this
      ensures Valid()
      ensures usuarios == old(usuarios) && cartoes == old(cartoes)
      ensures old(ActiveIndex(sessoes, u)).Some? ==>
                r == Raised(SessaoJaAtiva) && sessoes == old(sessoes) && nextSessaoId == old(nextSessaoId)
      ensures old(ActiveIndex(sessoes, u)).None? ==>
                && r == Ok(Entrada(old(nextSessaoId), agora))
                && sessoes == old(sessoes) + [Sessao(old(nextSessaoId), u, agora, None, None, Ativa)]
      ensures ActiveIndex(sessoes, u).Some?
    {
      if ActiveIndex(sessoes, u).Some? {
        return Raised(SessaoJaAtiva);
      }
      var nova := Sessao(nextSessaoId, u, agora, None, None, Ativa);
      InsertActiveKeepsOne(sessoes, nova);
      InsertActiveFound(sessoes, nova);
      sessoes := sessoes + [nova];
      r := Ok(Entrada(nextSessaoId, agora));
      nextSessaoId := nextSessaoId + 1;
    }

    /**
     * `POST /sessoes/checkout` at time `agora`: the active session is finished
     * (`UPDATE sessoes ... WHERE id = sessao_id`) with its exit time and charge.
     */
    method RegistrarSaida(u: int, agora: int) returns (r: Response<int>)
      requires Valid()
      modifies this
      ensures Valid()
      ensures usuarios == old(usuarios) && cartoes == old(cartoes) && nextSessaoId == old(nextSessaoId)
      ensures old(ActiveIndex(sessoes, u)).None? ==>
                r == Raised(NenhumaSessaoAtiva) && sessoes == old(sessoes)
      ensures old(ActiveIndex(sessoes, u)).Some? ==>
                var i := old(ActiveIndex(sessoes, u)).value;
                var s := old(sessoes)[i];
                && r == Ok(Charge(agora - s.horarioEntrada))
                && sessoes == old(sessoes)[i := Finalizar(s, agora, Charge(agora - s.horarioEntrada))]
      ensures ActiveIndex(sessoes, u).None?
      ensures forall v :: v != u ==> ActiveIndex(sessoes, v) == old(ActiveIndex(sessoes, v))
    {
      var ativa := ActiveIndex(sessoes, u);
      if ativa.None? {
        return Raised(NenhumaSessaoAtiva);
      }
      var i := ativa.value;
      var s := sessoes[i];
      var valor := Charge(agora - s.horarioEntrada);
      FinalizeClearsActive(sessoes, u, agora, valor);
      FinalizeKeepsTable(sessoes, i, agora, valor, nextSessaoId);
      FinalizarWhereIdIsPointUpdate(sessoes, i, agora, valor);
      var updated := FinalizarWhereId(sessoes, s.id, agora, valor);
      sessoes := updated;
      r := Ok(valor);
    }
  }

  /**
   * The session lifecycle on a fresh database: a second check-in is refused,
   * checkout charges the stay, a second checkout finds nothing, and the user
   * can check in again.
   */
  method CheckoutLifecycle(u: int, t0: int, t1: int, t2: int, t3: int)
    returns (r1: Response<Entrada>, r2: Response<Entrada>, r3: Response<int>, r4: Response<int>, r5: Response<Entrada>)
    ensures r1.Ok? && r1.value.horarioEntrada == t0
    ensures r2 == Raised(SessaoJaAtiva)
    ensures r3 == Ok(Charge(t2 - t0))
    ensures r4 == Raised(NenhumaSessaoAtiva)
    ensures r5.Ok? && r5.value.horarioEntrada == t3 && r5.value.sessaoId != r1.value.sessaoId
  {
    var db := new ParkingDb();
    r1 := db.RegistrarEntrada(u, t0);
    r2 := db.RegistrarEntrada(u, t1);
    r3 := db.RegistrarSaida(u, t2);
    r4 := db.RegistrarSaida(u, t3);
    r5 := db.RegistrarEntrada(u, t3);
  }
}
