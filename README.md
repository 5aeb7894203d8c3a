# Parking payment app: a Dafny model

This project models the rules of a parking-payment system. The system has two halves:

- A FastAPI backend. It registers users, checks passwords, lists cards with masked numbers and keeps the
  parking-session table. Check-in opens a session, and checkout closes it and charges R$ 5 per started hour.
- An Android client. Its view-models and screens log in, register cards and cars, scan the barrier's QR
  codes, show the running session with its timer and predicted cost, and go through the payment summary.

Each core source file becomes one module:

| module | file | form |
|---|---|---|
| `Backend` | `api-backend-python/main.py` | pure tariff and password rules, plus class `ParkingDb` whose handlers update the three tables |
| `Session` | `model/SessionManager.kt` | class `SessionManager` over a preferences map |
| `Login` | `screens/TelaLogin.kt` | pure route choice, plus class `TelaLogin` |
| `ActiveSession` | `screens/TelaEstacionamento.kt` | pure time split and price fetch, plus class `ActiveSessionScreen` with the timer loop |
| `Camera` | `screens/CameraScreen.kt` | pure `handleScan`, plus class `CameraScreen` holding the loading flag |
| `CardForm` | `screens/CadastroCartaoScreen.kt` | pure expiry formatter, plus class `CadastroCartaoScreen` |
| `CardEntry` | `screens/TelaCadastroCartao.kt` | class `TelaCadastroCartao` |
| `CarForm` | `screens/TelaCadastoCarro.kt` | class `TelaCadastroCarro`, which drives the car view-model |
| `CarList` | `teste/TelaCarrosContent.kt` and `teste/TelaCadastroCarroContent.kt` | pure |
| `Cars` | `CarManagementViewModel.kt` | class `CarManagementViewModel` |
| `Cards` | `CartaoViewModel.kt` | class `CartaoViewModel` |
| `CheckIn`, `CardSelection` | `EstacionamentoViewModel.kt`, `SelecaoCartaoViewModel.kt` | classes |
| `Payment` | `PagamentoViewModel.kt` | class `PagamentoViewModel` |

Kotlin paths are relative to `app/src/main/java/com/example/myapplication/`.

Shared modules:

- `Wrappers`: nullable values as `Option`.
- `Text`: the Kotlin string functions the screens call. These are `filter { isDigit() }`, `take`, `toIntOrNull`,
  `toLongOrNull`, `%02d`, `equals(ignoreCase = true)` and `isNullOrBlank`.
- `Fields`: the two text-field edit rules, capped and digits-only.
- `Remote`: what a network call returns, as an input value `Reply`. It is a 2xx response with a possibly null
  body, a non-2xx response with its code and error body, or an exception with its message.
- `Ui`: what a screen does to the outside world, as an ordered list of `Effect`s.

A view-model whose state flow takes several values keeps a log of the assignments to it, in order, in an `emitidos` field. A `StateFlow` collector sees an assigned value only when it differs from the value before, so the log can repeat a value that collectors see once.
Where a view-model's history matters (payment, check-in), the state is also a value. A `Passo` step function
and a `Run` over events define it, and lemmas prove invariants over every run. The class's methods are
proved to take exactly that step.

The code is followed wherever it and its documentation differ. These are the points where that matters:

- The car form keeps only the digits of the plate (`TelaCadastoCarro.kt:70`), so a plate's letters are lost.
- The placa/ano filters of the car-list preview live in `teste/TelaCadastroCarroContent.kt:71,79`.
  `teste/TelaCarrosContent.kt` itself has no text fields.
- `model/Cartao.kt` declares `numero: Int`, but `TelaCadastroCartao.kt:106` passes a `Long`. The model keeps the
  `toLongOrNull` value.

## Model

| member | source | states |
|---|---|---|
| Backend.BilledHours | api-backend-python/main.py:272 | At least one hour is billed. A stay of at most an hour bills 1. A positive stay of s seconds bills the h with (h-1)·3600 < s ≤ h·3600, i.e. every started hour |
| Backend.Charge | api-backend-python/main.py:272-273 | The charge is the hourly rate 5 times the billed hours: at least 5 and a multiple of 5 |
| Backend.BilledHoursExact | api-backend-python/main.py:272 | Every stay in (3600(k-1), 3600k] is billed exactly k hours |
| Backend.ChargeMonotone | api-backend-python/main.py:272-273 | A longer stay is never charged less |
| Backend.Utf8Length | api-backend-python/main.py:140 | The UTF-8 byte length of a string lies between its length and four times its length |
| Backend.ValidarSenha | api-backend-python/main.py:138-141 | A password passes iff it has at least 6 characters and at most 72 UTF-8 bytes. A short password gives the 422 "pelo menos 6" error; a long one gives the 422 size error. The length check comes first |
| Backend.AcceptedPasswordLength | api-backend-python/main.py:138-141 | An accepted password has between 6 and 72 characters |
| Backend.Utf8LengthUniform | api-backend-python/main.py:140 | n copies of one character take n times its UTF-8 width |
| Backend.Utf8LengthAscii | api-backend-python/main.py:140 | For ASCII text the byte limit is the character limit |
| Backend.NineteenEmojiRejected | api-backend-python/main.py:140-141 | 19 four-byte characters are refused as too long although they are only 19 characters; 18 are accepted |
| Backend.MascararNumero | api-backend-python/main.py:213-214 | A number of at most 4 characters is listed unchanged. A longer one is listed as 19 characters that start with `**** **** **** ` |
| Backend.MaskKeepsLastFour | api-backend-python/main.py:214 | The masked number ends with the original's last four characters |
| Backend.MaskRevealsOnlyLastFour | api-backend-python/main.py:212-214 | Two long numbers with the same last four digits are listed identically |
| Backend.MaskIdempotent | api-backend-python/main.py:212-214 | Masking a masked number changes nothing |
| Backend.ActiveIndex | api-backend-python/main.py:181-182 | `fetchone()` of the user's ATIVA sessions: the first such row. It is absent iff the user has no ATIVA row |
| Backend.CardCount | api-backend-python/main.py:177-178 | The user's card count never exceeds the table size |
| Backend.CartoesDoUsuario | api-backend-python/main.py:208-209 | The selection holds exactly the cards whose owner is the user |
| Backend.CardCountIsListingLength | api-backend-python/main.py:177-178 | The count reported at login is the length of the card listing |
| Backend.UserByEmail | api-backend-python/main.py:105-114 | A user found has that email and is in the table; none is found iff no row has that email |
| Backend.FinalizeClearsActive | api-backend-python/main.py:276-279 | Finishing a user's active session leaves that user with no active session. It keeps at most one active session per user and changes no other user's active session |
| Backend.Finalizar | api-backend-python/main.py:276-279 | The update sets exit time, charge and status FINALIZADA and keeps id, user and entry time. The row it leaves is consistent |
| Backend.InsertActiveKeepsOne | api-backend-python/main.py:238-248 | Inserting an ATIVA row for a user without one keeps at most one active session per user |
| Backend.InsertActiveFound | api-backend-python/main.py:245-248 | The inserted row is the one later found active for its user |
| Backend.FinalizarWhereId | api-backend-python/main.py:276-279 | `UPDATE ... WHERE id = sid` keeps the table's length and every row with another id, and finishes each row with that id. No row with that id stays ATIVA |
| Backend.FinalizarWhereIdIsPointUpdate | api-backend-python/main.py:276-279 | With increasing ids, `UPDATE ... WHERE id = sessao_id` finishes exactly the selected row |
| Backend.FinalizeKeepsTable | api-backend-python/main.py:276-279 | Finishing a row keeps ids increasing and below the counter, and keeps every row's status, exit time and charge consistent |
| Backend.ParkingDb.CadastrarUsuario | api-backend-python/main.py:136-158 | Password errors first; then a duplicate email gives 409 and the table is unchanged. Otherwise the user is appended with the next id and the hash, and the table invariants hold |
| Backend.ParkingDb.LoginUsuario | api-backend-python/main.py:163-203 | Unknown email or failed verify gives 401. Otherwise the reply has the user's id and name, card count = number of the user's cards, and active-session info iff an ATIVA session exists, taken from that row |
| Backend.ParkingDb.ListarCartoes | api-backend-python/main.py:205-216 | The masking loop returns the user's cards in table order. Each row is the public card with its number masked |
| Backend.ParkingDb.CadastrarCartao | api-backend-python/main.py:218-232 | The card is appended under the caller's id with the next id; other tables are unchanged |
| Backend.ParkingDb.RegistrarEntrada | api-backend-python/main.py:234-256 | With an active session: 409 and nothing changes. Otherwise a new ATIVA session with the next id and the entry time is appended. Afterwards the user has an active session, and at most one per user holds |
| Backend.ParkingDb.RegistrarSaida | api-backend-python/main.py:258-287 | Without an active session: 404 and nothing changes. Otherwise exactly that row is finished with the exit time and the charge for the stay, and the charge is returned. Afterwards the user has no active session and other users' are untouched |
| Backend.CheckoutLifecycle | api-backend-python/main.py:234-287 | On a fresh database: check-in succeeds, a second check-in gets 409, checkout charges the stay, a second checkout gets 404, and a new check-in gets a new session id |
| Session.Saved | app/src/main/java/com/example/myapplication/model/SessionManager.kt:27-32 | After `saveUserData` the id key holds the id. The name key holds the name, or is absent for a null name. Every other key is untouched |
| Session.ReadAfterSave | app/src/main/java/com/example/myapplication/model/SessionManager.kt:27-49 | The getters read back exactly the saved id and name |
| Session.LastSaveWins | app/src/main/java/com/example/myapplication/model/SessionManager.kt:27-32 | A second save completely replaces the first |
| Session.ClearedReadsDefaults | app/src/main/java/com/example/myapplication/model/SessionManager.kt:38-58 | After `clearSession` the getters give -1 and null |
| Session.MinusOneIsNoSession | app/src/main/java/com/example/myapplication/model/SessionManager.kt:34-40 | A saved id of -1 reads the same as no session |
| Session.SessionManager.SaveUserData | app/src/main/java/com/example/myapplication/model/SessionManager.kt:27-32 | The preferences become `Saved(old, id, name)` |
| Session.SessionManager.GetUserId | app/src/main/java/com/example/myapplication/model/SessionManager.kt:38-40 | The saved id, or -1 when none is saved |
| Session.SessionManager.GetUserName | app/src/main/java/com/example/myapplication/model/SessionManager.kt:47-49 | The saved name, or null when none is saved |
| Session.SessionManager.ClearSession | app/src/main/java/com/example/myapplication/model/SessionManager.kt:54-58 | Every key is removed |
| Login.Destino | app/src/main/java/com/example/myapplication/screens/TelaLogin.kt:148-159 | An active session routes to `estacionamento_ativo/<entry>`; otherwise the route is card registration or home |
| Login.DestinoEscolha | app/src/main/java/com/example/myapplication/screens/TelaLogin.kt:148-159 | The route starts with `estacionamento_ativo/` iff there is an active session. It is `cadastro_cartao` iff there is none and the card count is 0, and `home` iff there is none and the count is not 0 |
| Login.SessaoAtivaIgnoraCartoes | app/src/main/java/com/example/myapplication/screens/TelaLogin.kt:148-151 | With an active session the card count does not affect the route |
| Login.Resposta | app/src/main/java/com/example/myapplication/screens/TelaLogin.kt:142-168 | A reply with a body saves the token, saves the user's id and name, shows the success toast and navigates to `Destino`. Any other reply gives exactly one toast; an exception gives the connection-failure toast |
| Login.SalvaAntesDeNavegar | app/src/main/java/com/example/myapplication/screens/TelaLogin.kt:143-160 | Every save comes before the navigation. Without a body nothing is saved and nothing navigates. The screen navigates iff the reply has a body |
| Login.TelaLogin.Digitar | app/src/main/java/com/example/myapplication/screens/TelaLogin.kt:90-107 | The fields take the typed text; loading flag and effects unchanged |
| Login.TelaLogin.Entrar | app/src/main/java/com/example/myapplication/screens/TelaLogin.kt:133-171 | A click while loading changes nothing. Otherwise it sends the login request, applies `Resposta` and clears the loading flag. The session store holds the returned user iff the reply has a body |
| ActiveSession.QuotQuot | app/src/main/java/com/example/myapplication/screens/TelaEstacionamento.kt:79-80 | Java's truncating division by 60 twice equals division by 3600, for negative durations too |
| ActiveSession.Quot | app/src/main/java/com/example/myapplication/screens/TelaEstacionamento.kt:79-80 | Java's `/` rounds toward zero: the remainder left lies in [0, b) for a non-negative dividend and in (-b, 0] for a negative one |
| ActiveSession.Rem | app/src/main/java/com/example/myapplication/screens/TelaEstacionamento.kt:80-81 | Java's `%` takes the sign of the dividend, is smaller than the divisor in size, and differs from the dividend by a multiple of it |
| ActiveSession.Split | app/src/main/java/com/example/myapplication/screens/TelaEstacionamento.kt:78-81 | Hours, minutes and seconds recombine to the duration. For a non-negative duration minutes and seconds lie in [0,60); for a negative one they lie in (-60,0], as Java's `%` gives |
| ActiveSession.SplitUnique | app/src/main/java/com/example/myapplication/screens/TelaEstacionamento.kt:79-81 | A non-negative duration has exactly one hours/minutes/seconds reading |
| ActiveSession.FormatHms | app/src/main/java/com/example/myapplication/screens/TelaEstacionamento.kt:82 | `%02d:%02d:%02d` gives at least 8 characters. For fields in 0..99 it gives two digits, ':', two digits, ':', two digits, and each pair reads back to its field |
| ActiveSession.FormatElapsed | app/src/main/java/com/example/myapplication/screens/TelaEstacionamento.kt:78-82 | The timer text has at least 8 characters. It does not start with '-' for a non-negative duration, and contains a '-' for a negative one |
| ActiveSession.FormatHmsSign | app/src/main/java/com/example/myapplication/screens/TelaEstacionamento.kt:82 | A negative field puts a '-' into the timer text, and a non-negative hour field never starts it with one |
| ActiveSession.FormatElapsedReadsBack | app/src/main/java/com/example/myapplication/screens/TelaEstacionamento.kt:78-82 | Under 100 hours the timer text is `HH:MM:SS`: 8 characters, colons at 2 and 5, digit pairs that read back to the duration |
| ActiveSession.FormatElapsedExample | app/src/main/java/com/example/myapplication/screens/TelaEstacionamento.kt:78-82 | 125 seconds read `00:02:05` |
| ActiveSession.FormatHmsExample | app/src/main/java/com/example/myapplication/screens/TelaEstacionamento.kt:82 | `%02d:%02d:%02d` of (0, 2, 5) is `00:02:05` |
| ActiveSession.TempoInicialZerado | app/src/main/java/com/example/myapplication/screens/TelaEstacionamento.kt:65 | The timer starts at `00:00:00` |
| ActiveSession.Abrir | app/src/main/java/com/example/myapplication/screens/TelaEstacionamento.kt:50-60 | A null or blank entry time shows "não encontrado". An unparsable one shows "Formato de horário inválido". The timer starts iff the time is present and parsed, and it starts from that time |
| ActiveSession.BuscarPreco | app/src/main/java/com/example/myapplication/screens/TelaEstacionamento.kt:154-175 | A price comes back iff there is a token, a successful reply and a `valor_previsto`, and it is that value |
| ActiveSession.Busca | app/src/main/java/com/example/myapplication/screens/TelaEstacionamento.kt:85 | Pass a fetches iff Java's `a % 10` is 0; among the first ten passes only pass 0 fetches |
| ActiveSession.CustoPasso | app/src/main/java/com/example/myapplication/screens/TelaEstacionamento.kt:85-92 | A pass keeps the cost or shows a price. A fetching pass whose request returned a price always shows that price. Any other pass leaves the cost as it was |
| ActiveSession.CustoApos | app/src/main/java/com/example/myapplication/screens/TelaEstacionamento.kt:73-97 | After any passes the placeholder shows only if it showed before, and a changed cost is a price |
| ActiveSession.UltimoPreco | app/src/main/java/com/example/myapplication/screens/TelaEstacionamento.kt:85-92 | Reference reading of a run of passes: there is no last price iff no pass brought one back |
| ActiveSession.UltimoPrecoDoPasso | app/src/main/java/com/example/myapplication/screens/TelaEstacionamento.kt:85-92 | If pass k brought back a price and no later pass did, the last price is pass k's |
| ActiveSession.CustoAposSnoc | app/src/main/java/com/example/myapplication/screens/TelaEstacionamento.kt:74-96 | Adding one pass at the end applies that pass to the cost the earlier passes left |
| ActiveSession.CustoAposUltimoPreco | app/src/main/java/com/example/myapplication/screens/TelaEstacionamento.kt:85-92 | After any passes the cost shown is the price from the last fetching pass that got one back. When no fetching pass got one, it is the cost from before the passes |
| ActiveSession.Buscas | app/src/main/java/com/example/myapplication/screens/TelaEstacionamento.kt:84-94 | n passes launch at most n requests, and at least one when the first pass is a fetching one |
| ActiveSession.BuscasDesdeOInicio | app/src/main/java/com/example/myapplication/screens/TelaEstacionamento.kt:84-94 | Starting at counter 0, n passes launch ⌈n/10⌉ price requests, the first pass included |
| ActiveSession.PlaceholderEnquantoSemPreco | app/src/main/java/com/example/myapplication/screens/TelaEstacionamento.kt:85-92 | The cost stays `R$ --,--` iff no request launched so far returned a price |
| ActiveSession.ValorPermanece | app/src/main/java/com/example/myapplication/screens/TelaEstacionamento.kt:88-91 | Once a price is shown the placeholder never returns |
| ActiveSession.SemTokenSemPreco | app/src/main/java/com/example/myapplication/screens/TelaEstacionamento.kt:155-159 | Without a token the placeholder stays for good |
| ActiveSession.Checkout | app/src/main/java/com/example/myapplication/screens/TelaEstacionamento.kt:228-241 | With a token it navigates to `exibir_qrcode_saida/<token>`. Without one it shows the "Sessão inválida" toast. The completion callback runs once, last |
| ActiveSession.CheckoutRotaTrazToken | app/src/main/java/com/example/myapplication/screens/TelaEstacionamento.kt:236-237 | The exit route starts with `exibir_qrcode_saida/` and the rest of it is exactly the token, so different tokens give different routes |
| ActiveSession.ActiveSessionScreen.Tick | app/src/main/java/com/example/myapplication/screens/TelaEstacionamento.kt:75-95 | One pass: the timer shows the split of now − entry and the counter grows by one. Passes with `a % 10 == 0` launch a request and take its price if one comes back |
| ActiveSession.ActiveSessionScreen.Run | app/src/main/java/com/example/myapplication/screens/TelaEstacionamento.kt:73-97 | After n passes: the counter grew by n, the cost is `CustoApos` of the passes, the requests launched are `Buscas`, and the timer shows the last pass's reading |
| ActiveSession.ActiveSessionScreen.PagarESair | app/src/main/java/com/example/myapplication/screens/TelaEstacionamento.kt:128-142 | The disabled button does nothing. Otherwise the effects are `Checkout(token)` and the flag is lowered again |
| Camera.RespostaCheckIn | app/src/main/java/com/example/myapplication/screens/CameraScreen.kt:151-169 | A toast then one move. The move is to the active-session route with the entry time iff the reply has a body; otherwise it pops back |
| Camera.RespostaCheckOut | app/src/main/java/com/example/myapplication/screens/CameraScreen.kt:205-223 | The payment toast with the amount and home iff the reply has a body; otherwise a toast and pop back |
| Camera.HandleCheckIn | app/src/main/java/com/example/myapplication/screens/CameraScreen.kt:118-174 | The callback completes exactly once, last. A value other than "checkin" (any case) gives the invalid toast and pop back. Without a token there is only the detection toast. Otherwise the request carries the Bearer token and `cancela_id`, and the effects after it are `RespostaCheckIn(reply)` |
| Camera.HandleCheckOut | app/src/main/java/com/example/myapplication/screens/CameraScreen.kt:177-228 | The callback completes exactly once, last. A wrong value is reported. Without a token the session-expired toast is shown and the screen goes to login. Otherwise the Bearer request is sent, and the effects after it are `RespostaCheckOut(reply)` |
| Camera.HandleScan | app/src/main/java/com/example/myapplication/screens/CameraScreen.kt:100-116 | The callback completes exactly once, last; an unknown mode gives "Modo de scanner inválido." and pop back |
| Camera.RequisitaSoQuandoValido | app/src/main/java/com/example/myapplication/screens/CameraScreen.kt:100-228 | A request is sent iff the mode is known, the value equals it ignoring case, and a token is saved |
| Camera.CheckInNavegaSoComSessao | app/src/main/java/com/example/myapplication/screens/CameraScreen.kt:152-157 | A valid check-in scan reaches the active-session screen iff the server returns a session, and uses its entry time |
| Camera.CheckOutPagoVaiParaHome | app/src/main/java/com/example/myapplication/screens/CameraScreen.kt:205-223 | A valid checkout scan shows the payment toast with `valor_pago` and goes home iff the server returns a receipt. Otherwise it pops back |
| Camera.ValorIgnoraCaixa | app/src/main/java/com/example/myapplication/screens/CameraScreen.kt:124-128 | The value check is equality after lower-casing |
| Camera.ValorIgnoraCaixaExemplos | app/src/main/java/com/example/myapplication/screens/CameraScreen.kt:183-187 | "CheckIn" and "CHECKOUT" pass; "check-in" does not |
| Camera.SimulacaoPassa | app/src/main/java/com/example/myapplication/screens/CameraScreen.kt:69-75 | In either known mode the simulated value passes the check, so with a token the simulation always reaches the API |
| Camera.DeteccaoSemValorTrava | app/src/main/java/com/example/myapplication/screens/CameraScreen.kt:54-62 | As written, a detection without a raw value leaves the flag raised, and every later detection is then ignored |
| Camera.CarregandoAposDeteccao | app/src/main/java/com/example/myapplication/screens/CameraScreen.kt:54-62 | As written: once the flag is raised it stays, and a detection on a lowered flag leaves it raised iff the detection has no value |
| Camera.CameraScreen.Processar | app/src/main/java/com/example/myapplication/screens/CameraScreen.kt:58-61 | The scan's effects are appended and its completion lowers the flag |
| Camera.CameraScreen.OnBarCodeDetected | app/src/main/java/com/example/myapplication/screens/CameraScreen.kt:54-62 | A detection while loading is ignored. Otherwise the first code's value is handled by `HandleScan`. In every case the flag ends lowered, including when there is no value (corrected) |
| Camera.CameraScreen.SimularLeitura | app/src/main/java/com/example/myapplication/screens/CameraScreen.kt:67-75 | The hidden button does nothing. Otherwise the simulated value is scanned and the flag ends lowered |
| Fields.EditCapped | app/src/main/java/com/example/myapplication/screens/CadastroCartaoScreen.kt:56-60 | A new text within the cap is taken as is; a longer one leaves the field unchanged |
| Fields.EditDigits | app/src/main/java/com/example/myapplication/screens/TelaCadastroCartao.kt:72 | A new text within the cap is taken as its digits; a longer one leaves the field unchanged |
| Fields.CappedStaysWithin | app/src/main/java/com/example/myapplication/screens/CadastroCartaoScreen.kt:56-60 | Whatever is typed, a capped field never exceeds its cap |
| Fields.DigitsStayDigits | app/src/main/java/com/example/myapplication/screens/TelaCadastroCartao.kt:72 | Whatever is typed, a digit field holds only digits and never exceeds its cap |
| Fields.LengthCheckedBeforeFilter | app/src/main/java/com/example/myapplication/screens/TelaCadastroCartao.kt:81 | The raw length is checked before filtering: "12 34" is refused by a 4-cap, "1 2" gives "12" |
| Text.DigitsOnly | app/src/main/java/com/example/myapplication/screens/CadastroCartaoScreen.kt:82 | `filter { isDigit() }` keeps only digits, keeps each digit as often as it occurs, and leaves digit text unchanged |
| Text.DigitsOnlyAppend | app/src/main/java/com/example/myapplication/screens/CadastroCartaoScreen.kt:82 | The filter distributes over concatenation, so the digits keep their order |
| Text.Take | app/src/main/java/com/example/myapplication/screens/CadastroCartaoScreen.kt:84 | `take(n)` is the prefix of length min(n, length) |
| Text.ParseInteger | app/src/main/java/com/example/myapplication/screens/TelaCadastroCartao.kt:106-108 | `toIntOrNull`/`toLongOrNull`: "" gives null. A digit string gives its value when it fits the type and null when it overflows. Any result lies in range |
| Text.ShortDigitsParse | app/src/main/java/com/example/myapplication/screens/TelaCadastroCartao.kt:106-108 | A digit string short enough for the type parses, with the `?: 0` fallback, to its decimal value |
| Text.IntOrZero | app/src/main/java/com/example/myapplication/screens/TelaCadastroCartao.kt:107-108 | `toIntOrNull() ?: 0` lies in Int range, gives 0 for "", and gives the decimal value of up to 9 digits |
| Text.LongOrZero | app/src/main/java/com/example/myapplication/screens/TelaCadastroCartao.kt:106 | `toLongOrNull() ?: 0L` lies in Long range, gives 0 for "", and gives the decimal value of up to 16 digits |
| Text.IntPlus | app/src/main/java/com/example/myapplication/CarManagementViewModel.kt:111 | Kotlin's `Int` addition stays in Int range, equals the exact sum when that fits, and is congruent to it modulo 2^32 |
| Text.NatToString | app/src/main/java/com/example/myapplication/CartaoViewModel.kt:92 | The decimal text of a number is digits with no leading zero and reads back to the number |
| Text.NatToStringOfDecimalValue | app/src/main/java/com/example/myapplication/CartaoViewModel.kt:92 | A canonical digit string is the text of its own value |
| Text.Format02 | app/src/main/java/com/example/myapplication/screens/TelaEstacionamento.kt:82 | `%02d` gives at least two characters; for 0..99 exactly two digits that read back to the number; a leading '-' iff negative |
| Text.EqualsIgnoreCaseIsLowercaseEquality | app/src/main/java/com/example/myapplication/screens/CameraScreen.kt:124 | `equals(ignoreCase = true)` holds iff the lower-cased strings are equal |
| Text.EqualsIgnoreCase | app/src/main/java/com/example/myapplication/screens/CameraScreen.kt:124 | Equal strings match. Matching strings have the same length, and both are all digits or neither is |
| Text.IsWhitespace | app/src/main/java/com/example/myapplication/screens/TelaEstacionamento.kt:50 | Space, tab and newline are whitespace. No digit or ASCII letter is |
| Text.IsNullOrBlank | app/src/main/java/com/example/myapplication/screens/TelaEstacionamento.kt:50 | Null and "" are blank. A text holding a digit, such as an entry time, is not |
| CardForm.FormatarValidade | app/src/main/java/com/example/myapplication/screens/CadastroCartaoScreen.kt:78-94 | The expiry field never exceeds 5 characters |
| CardForm.DigitsAroundSlash | app/src/main/java/com/example/myapplication/screens/CadastroCartaoScreen.kt:90 | The slash the formatter adds is the only non-digit in its output |
| CardForm.FormatarValidadeForma | app/src/main/java/com/example/myapplication/screens/CadastroCartaoScreen.kt:82-90 | The output's digits are the first at most 4 digits typed, in order. With ≤ 2 of them it is exactly those, with no '/'. With 3–4 it is two digits, '/' at index 2, then the rest |
| CardForm.FormatarValidadeIdempotente | app/src/main/java/com/example/myapplication/screens/CadastroCartaoScreen.kt:78-94 | Formatting the field's own text changes nothing |
| CardForm.FormatarValidadeExemplo | app/src/main/java/com/example/myapplication/screens/CadastroCartaoScreen.kt:86-90 | "1" stays "1" and "0125" becomes "01/25" |
| CardForm.Salvar | app/src/main/java/com/example/myapplication/screens/CadastroCartaoScreen.kt:127-163 | Without a token: the session toast and login, with no request. With one: the first effect is the request with the Bearer token and the four fields |
| CardForm.SalvarVaiParaHome | app/src/main/java/com/example/myapplication/screens/CadastroCartaoScreen.kt:149-154 | The form goes home iff a token is saved and the server accepts the card |
| CardForm.SemTokenNaoEnvia | app/src/main/java/com/example/myapplication/screens/CadastroCartaoScreen.kt:128-134 | Without a token no request is made |
| CardForm.CadastroCartaoScreen.EditarNumero | app/src/main/java/com/example/myapplication/screens/CadastroCartaoScreen.kt:56-60 | The number follows the 16-cap rule; the caps and the expiry shape hold |
| CardForm.CadastroCartaoScreen.EditarNome | app/src/main/java/com/example/myapplication/screens/CadastroCartaoScreen.kt:69 | The name takes any text |
| CardForm.CadastroCartaoScreen.EditarValidade | app/src/main/java/com/example/myapplication/screens/CadastroCartaoScreen.kt:78-94 | The expiry becomes `FormatarValidade` of the input and stays in formatted shape |
| CardForm.CadastroCartaoScreen.EditarCvv | app/src/main/java/com/example/myapplication/screens/CadastroCartaoScreen.kt:103-107 | The CVV follows the 3-cap rule |
| CardForm.CadastroCartaoScreen.BotaoSalvar | app/src/main/java/com/example/myapplication/screens/CadastroCartaoScreen.kt:117-166 | A click while loading is ignored. Otherwise the effects are `Salvar(...)` and the flag ends lowered on every path, the missing-token one included |
| CardEntry.Montar | app/src/main/java/com/example/myapplication/screens/TelaCadastroCartao.kt:103-110 | The card carries bank and name as typed and user 1, with numbers in Long/Int range. An empty number, expiry or CVC becomes 0 |
| CardEntry.MontarCamposValidos | app/src/main/java/com/example/myapplication/screens/TelaCadastroCartao.kt:106-108 | Fields produced by the edit rules parse: each submitted number is the decimal value of its field |
| CardEntry.TelaCadastroCartao.EditarBanco | app/src/main/java/com/example/myapplication/screens/TelaCadastroCartao.kt:56 | The bank takes any text |
| CardEntry.TelaCadastroCartao.EditarNome | app/src/main/java/com/example/myapplication/screens/TelaCadastroCartao.kt:64 | The name takes any text |
| CardEntry.TelaCadastroCartao.EditarNumero | app/src/main/java/com/example/myapplication/screens/TelaCadastroCartao.kt:72 | The number follows the digits rule with cap 16 |
| CardEntry.TelaCadastroCartao.EditarValidade | app/src/main/java/com/example/myapplication/screens/TelaCadastroCartao.kt:81 | The expiry follows the digits rule with cap 4 |
| CardEntry.TelaCadastroCartao.EditarCvc | app/src/main/java/com/example/myapplication/screens/TelaCadastroCartao.kt:90 | The CVC follows the digits rule with cap 3 |
| CardEntry.TelaCadastroCartao.Cadastrar | app/src/main/java/com/example/myapplication/screens/TelaCadastroCartao.kt:98-112 | A card is handed over iff the view-model is not loading. It is `Montar` of the fields, and its numbers are the fields' decimal values |
| CarForm.NovoCarro | app/src/main/java/com/example/myapplication/screens/TelaCadastoCarro.kt:91-99 | The car has no id, the example image and user 1. Brand, model, plate and colour are as given, the year is in Int range, and an empty year gives 0 |
| CarForm.NovoCarroAno | app/src/main/java/com/example/myapplication/screens/TelaCadastoCarro.kt:94 | A year the edit rule let through is submitted as its decimal value |
| CarForm.PlacaPerdeLetras | app/src/main/java/com/example/myapplication/screens/TelaCadastoCarro.kt:70 | Typing "ABC1D23" into the plate leaves "123" |
| CarForm.TelaCadastroCarro.EditarMarca | app/src/main/java/com/example/myapplication/screens/TelaCadastoCarro.kt:54 | The brand takes any text |
| CarForm.TelaCadastroCarro.EditarModelo | app/src/main/java/com/example/myapplication/screens/TelaCadastoCarro.kt:62 | The model takes any text |
| CarForm.TelaCadastroCarro.EditarPlaca | app/src/main/java/com/example/myapplication/screens/TelaCadastoCarro.kt:70 | The plate follows the digits rule with cap 7 |
| CarForm.TelaCadastroCarro.EditarAno | app/src/main/java/com/example/myapplication/screens/TelaCadastoCarro.kt:78 | The year follows the digits rule with cap 4 |
| CarForm.TelaCadastroCarro.Cadastrar | app/src/main/java/com/example/myapplication/screens/TelaCadastoCarro.kt:86-101 | While the view-model loads nothing happens. Otherwise the car built from the fields, with colour "", goes to `addCarro`. It is sent iff a token is saved and fewer than 3 cars are held. An accepted car is appended and the screen navigates to `carros`; otherwise list and navigation are unchanged |
| CarList.PodeAdicionar | app/src/main/java/com/example/myapplication/teste/TelaCarrosContent.kt:25 | The add button is enabled iff the list is below the view-model's 3-car limit |
| CarList.AdicionarRespeitaLimite | app/src/main/java/com/example/myapplication/teste/TelaCarrosContent.kt:25-34 | Adding one car while the button is enabled never passes the limit; the button turns off exactly when the third car arrives |
| CarList.Conteudo | app/src/main/java/com/example/myapplication/teste/TelaCarrosContent.kt:46-57 | The empty state shows iff the list is empty; otherwise the list shows that very list |
| CarList.VazioPodeAdicionar | app/src/main/java/com/example/myapplication/teste/TelaCarrosContent.kt:25-48 | The empty state always comes with an enabled add button |
| CarList.RepassarPlaca | app/src/main/java/com/example/myapplication/teste/TelaCadastroCarroContent.kt:71 | A plate edit is forwarded iff it has at most 7 characters, and it is forwarded as typed |
| CarList.RepassarAno | app/src/main/java/com/example/myapplication/teste/TelaCadastroCarroContent.kt:79 | A year edit is forwarded iff it has at most 4 characters, and it is forwarded as at most 4 digits |
| CarList.RepasseComoRegras | app/src/main/java/com/example/myapplication/teste/TelaCadastroCarroContent.kt:71-79 | A holder that stores what is forwarded follows the capped rule for the plate and the digits rule for the year |
| CarList.PlacaComLetrasRepassada | app/src/main/java/com/example/myapplication/teste/TelaCadastroCarroContent.kt:71 | Unlike the car form, the preview forwards "ABC1D23" with its letters |
| Cars.IndiceDoMaximo | app/src/main/java/com/example/myapplication/CarManagementViewModel.kt:110 | `maxByOrNull { it.id ?: 0 }`: absent iff the list is empty. Otherwise it picks a car of greatest key, the first such |
| Cars.IdExemplo | app/src/main/java/com/example/myapplication/CarManagementViewModel.kt:110-111 | The example id lies in Int range, and is 1 for an empty list |
| Cars.IdExemploNovo | app/src/main/java/com/example/myapplication/CarManagementViewModel.kt:110-111 | The example id is a Kotlin `Int`. It is 1 or the wrapped successor of an id present. While every id lies in Int range below `Int.MAX_VALUE`, it is above every id present |
| Cars.IdExemploTransborda | app/src/main/java/com/example/myapplication/CarManagementViewModel.kt:110-111 | A car with id `Int.MAX_VALUE` makes `maxId + 1` wrap to `Int.MIN_VALUE`, so the example id can equal an id another car holds |
| Cars.SemId | app/src/main/java/com/example/myapplication/CarManagementViewModel.kt:137 | `removeAll { it.id == carroId }` keeps exactly the cars with another id |
| Cars.SemIdAppend | app/src/main/java/com/example/myapplication/CarManagementViewModel.kt:137 | Removal works piecewise on a split list, so it keeps the order |
| Cars.SemIdSemEfeito | app/src/main/java/com/example/myapplication/CarManagementViewModel.kt:137 | A list without that id is left as it is |
| Cars.SemIdIdempotente | app/src/main/java/com/example/myapplication/CarManagementViewModel.kt:137 | Removing twice is removing once |
| Cars.CarManagementViewModel.constructor | app/src/main/java/com/example/myapplication/CarManagementViewModel.kt:34-37 | `init` fetches: the list is the returned one with a token and a success, and empty otherwise |
| Cars.CarManagementViewModel.BuscarCarrosDoUsuario | app/src/main/java/com/example/myapplication/CarManagementViewModel.kt:39-64 | Without a token: "Usuário não autenticado." and nothing is loaded. With one: success replaces the list (null body gives an empty list); an error or failure keeps it and sets its message; loading ends lowered |
| Cars.CarManagementViewModel.AddCarro | app/src/main/java/com/example/myapplication/CarManagementViewModel.kt:66-106 | Sent iff there is a token and fewer than 3 cars. Refusals set "Sessão expirada" or "Limite de 3 carros" and change nothing else. Success appends the returned car and emits one event; the HTTP or IO errors set their messages. The 3-car limit is preserved |
| Cars.CarManagementViewModel.ProximoIdExemplo | app/src/main/java/com/example/myapplication/CarManagementViewModel.kt:110-111 | The loop's id is `IdExemplo` of the list. While every id lies in Int range below `Int.MAX_VALUE`, it is above every id present |
| Cars.CarManagementViewModel.AddExampleCar | app/src/main/java/com/example/myapplication/CarManagementViewModel.kt:109-123 | The example car gets id `IdExemplo` of the list, which no car in the list has while every id lies in Int range below `Int.MAX_VALUE`. It is added under `addCarro`'s rules |
| Cars.CarManagementViewModel.DeletarCarro | app/src/main/java/com/example/myapplication/CarManagementViewModel.kt:125-148 | Without a token: "Sessão expirada" and no change. Success removes every car with the id; failures set their messages and keep the list. No car is ever added |
| Cards.DesfechoCadastro | app/src/main/java/com/example/myapplication/CartaoViewModel.kt:54-61 | Success iff the reply is 2xx; an error body becomes the error message; never Idle or Loading |
| Cards.DesfechoBusca | app/src/main/java/com/example/myapplication/CartaoViewModel.kt:88-99 | Success iff 2xx, with the body or an empty list; never Loading |
| Cards.ErroBuscaTrazCodigo | app/src/main/java/com/example/myapplication/CartaoViewModel.kt:92 | A listing error starts with "Erro ao buscar cartões: " and the status code reads back from the rest |
| Cards.CartaoViewModel.constructor | app/src/main/java/com/example/myapplication/CartaoViewModel.kt:34-72 | Registration starts Idle and the listing starts Loading |
| Cards.CartaoViewModel.CadastrarCartao | app/src/main/java/com/example/myapplication/CartaoViewModel.kt:37-64 | With user id -1: straight to "ID do usuário não encontrado." with no request and no Loading. Otherwise Loading, the request with the user id, then `DesfechoCadastro` |
| Cards.CartaoViewModel.ResetState | app/src/main/java/com/example/myapplication/CartaoViewModel.kt:66-68 | Registration returns to Idle |
| Cards.CartaoViewModel.BuscarCartoes | app/src/main/java/com/example/myapplication/CartaoViewModel.kt:75-102 | With user id -1: "Usuário não autenticado." with no request. Otherwise Loading then `DesfechoBusca` |
| CheckIn.Desfecho | app/src/main/java/com/example/myapplication/EstacionamentoViewModel.kt:39-64 | Success iff a token is saved and the reply has a body, carrying that body. No token gives "Usuário não autenticado". Never Idle or Loading |
| CheckIn.SemResetUmaDeCadaVez | app/src/main/java/com/example/myapplication/EstacionamentoViewModel.kt:28-32 | Without resets, at most one check-in is in flight and one is in flight iff the state is Loading |
| CheckIn.LoadingTemCheckInEmCurso | app/src/main/java/com/example/myapplication/EstacionamentoViewModel.kt:28-66 | Loading always has a running check-in behind it that will settle it |
| CheckIn.ResetDuranteLoadingDuplica | app/src/main/java/com/example/myapplication/EstacionamentoViewModel.kt:28-71 | Tap, reset, tap launches two check-ins; tap, tap launches one |
| CheckIn.EstacionamentoViewModel.FazerCheckIn | app/src/main/java/com/example/myapplication/EstacionamentoViewModel.kt:28-34 | The step `Tap`: a check-in is launched iff the state was not Loading |
| CheckIn.EstacionamentoViewModel.ConcluirCheckIn | app/src/main/java/com/example/myapplication/EstacionamentoViewModel.kt:39-64 | The step `Settle`: the state becomes `Desfecho(token, reply)` |
| CheckIn.EstacionamentoViewModel.ResetState | app/src/main/java/com/example/myapplication/EstacionamentoViewModel.kt:69-71 | The step `Reset`: the state becomes Idle |
| CardSelection.Desfecho | app/src/main/java/com/example/myapplication/SelecaoCartaoViewModel.kt:29-39 | Success iff the result is a non-empty list, and then exactly that list. An empty list gives "Nenhum cartão cadastrado.". A failure gives its message (or the default). Never Carregando |
| CardSelection.SelecaoCartaoViewModel.CarregarCartoes | app/src/main/java/com/example/myapplication/SelecaoCartaoViewModel.kt:25-42 | Carregando is assigned, then `Desfecho(result)` |
| Payment.PassoConsistente | app/src/main/java/com/example/myapplication/PagamentoViewModel.kt:52-100 | Every event keeps the view-model consistent. Any UI state implies a held summary. Ready shows that summary and success shows its total. Neither idle nor loading is left standing, and the check-in flag is only ever set to false |
| Payment.RunConsistente | app/src/main/java/com/example/myapplication/PagamentoViewModel.kt:52-100 | Consistency holds after every sequence of events |
| Payment.SucessoMostraTotal | app/src/main/java/com/example/myapplication/PagamentoViewModel.kt:76 | In any history, a success shows the total of the summary in hand |
| Payment.DadosNuncaSomem | app/src/main/java/com/example/myapplication/PagamentoViewModel.kt:53 | Once a summary is held it is never dropped |
| Payment.ProcessarEmite | app/src/main/java/com/example/myapplication/PagamentoViewModel.kt:60-90 | Without a summary nothing happens. Otherwise exactly Carregando then one outcome is assigned; the outcome is success iff the payment succeeded, and success clears the check-in flag |
| Payment.FalhaTentarDeNovo | app/src/main/java/com/example/myapplication/PagamentoViewModel.kt:81-99 | After a failure, retrying shows the same summary again |
| Payment.FalhaTrazMotivo | app/src/main/java/com/example/myapplication/PagamentoViewModel.kt:85 | The failure detail is "Motivo: " followed by the exception's message |
| Payment.PagamentoViewModel.IniciarFluxoDePagamento | app/src/main/java/com/example/myapplication/PagamentoViewModel.kt:52-55 | The step `Iniciar`, assigning ProntoParaConfirmar |
| Payment.PagamentoViewModel.ProcessarPagamento | app/src/main/java/com/example/myapplication/PagamentoViewModel.kt:60-90 | The step `Processar`, assigning what `Emitidos` lists |
| Payment.PagamentoViewModel.TentarNovamente | app/src/main/java/com/example/myapplication/PagamentoViewModel.kt:96-100 | The step `TentarNovamente`, assigning the ready state iff a summary is held |

## Left out

- JWT handling: `criar_token_acesso` and `get_current_user_id` are cryptography. The authenticated user id is a parameter of each handler, and the client's saved token is an input `Option<string>`.
- bcrypt: `get_senha_hash` and `verificar_senha` are cryptography. The hash is an input, and verification is a function parameter.
- Database failures: the connection error (503), non-duplicate insert errors (500 or 400) and the checkout rollback depend on MySQL, not on the handlers' rules. The duplicate-email 409 is modelled as an email already in the table.
- Time: `datetime.now()`, `LocalDateTime.now()` and `delay(1000)` are I/O. Times are whole seconds, given as parameters or as each timer pass's input. ISO formatting and `LocalDateTime.parse` are inputs; the parse result is `entradaLida`.
- Money: `valor_final` is a float and the client shows `R$ %.2f`. The model uses integer currency units, which are exact because the charge is always a multiple of 5. The float formatting of prices is not modelled.
- Backend.ParkingDb.LoginUsuario: the reply's `access_token` and `token_type` are not modelled, because they are JWT output.
- Backend.ParkingDb.ListarCartoes: a card row whose `numero` is NULL is not modelled, because the model's card numbers are always strings.
- ActiveSession.ActiveSessionScreen.Run: the infinite `while (true)` loop runs over a finite list of passes, and the reply to each launched price request is applied in the pass that launched it. Later interleavings of those coroutines are not modelled.
- ActiveSession.ActiveSessionScreen.Tick: the timer text is kept as its hours, minutes and seconds. `FormatHms` of that value is the text. The lemmas about the text are FormatElapsedReadsBack, FormatElapsedExample and TempoInicialZerado.
- Token storage: `SessionManager.kt` defines no `saveAuthToken`, `getAuthToken`, `fetchAuthToken` or `setCheckInStatus`, although other files call them. Saving the token is the `SaveAuthToken` effect. Reading it is an input. The payment check-in flag is a field of the payment view-model.
- Coroutine interleavings: each launched coroutine runs to completion when its screen or view-model method is called. The check-in view-model is the exception: its launch and its settling are separate events, so taps and resets can come in between.
- Camera.HandleCheckOut: in the no-token branch the toast and navigation are posted to the main thread and `onComplete` runs on the IO thread, so their real order can vary. The model lists them in source order.
- Navigation options (`popUpTo`, `inclusive`) only tidy the back stack. Only the destination is modelled.
- Compose layout: progress indicators, error texts, focus handling, camera permission and the `CameraView` analyzer are display or platform code. Where a button is shown only while not loading, the model's method does nothing while loading.
- CardEntry.TelaCadastroCartao.Cadastrar: the view-model behind this form is abstract, so `addCartao` and the navigation to `cartoes` on its event cannot be followed. The method returns the card handed to it.
- Text.IsDigit: Kotlin's `isDigit()` accepts every Unicode decimal digit. The model accepts ASCII '0'..'9' only, because Unicode category tables are not modelled. Text.CharEqualsIgnoreCase folds ASCII letters only, for the same reason.
- Text.ParseInteger: its contract covers empty and all-digit strings, which are what the digit-filtered fields produce. A leading sign is parsed as Kotlin does, but no contract speaks about it.
- Payment: `efetuarPagamento` and the repositories are network code. Their results are inputs of type `Outcome`.
- Logging (`Log.e`, `Log.d`) has no effect on the app's state.

## Findings

| source | as written | input that shows it | evidently intended | confidence | as-written member | corrected member |
|---|---|---|---|---|---|---|
| app/src/main/java/com/example/myapplication/screens/CameraScreen.kt:55-62 | `isLoading` is set to true before the raw value is checked. A detection whose first code has a null `rawValue` never calls `handleScan`, so nothing lowers the flag. The camera view stops analysing after that first detection, and the simulation button, shown only while the flag is down, stays hidden for good | one detected barcode whose `rawValue` is null | the flag is lowered again when there is no value to handle | medium, not executed | Camera.CarregandoAposDeteccao | Camera.CameraScreen.OnBarCodeDetected |
