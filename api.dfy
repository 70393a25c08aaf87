/** The client side of Front/Gerenciador-Tarefas/src/app/services/api.ts:
    the session kept by `ApiService` (the logged-in user and the
    authenticated flag), what a login answer and a logout do to it, and the
    message `tratarErros` derives from a failed request. */
module Api {
  import opened Wrappers
  import Server

  /** The user as the client keeps it: no password. */
  datatype Usuario = Usuario(id: int, nome: string, email: string)

  /** The body of a successful login answer; `usuario` may be missing. */
  datatype AutenticacaoResponse = AutenticacaoResponse(message: string, usuario: Option<Server.User>)

  /** `error.error` of a failed request: a client-side `ErrorEvent`, or the
      body the server sent, reduced to its `message` property (`None` when
      the body is null or has no message). */
  datatype ErrorPayload = ClientEvent(eventMessage: string) | ServerPayload(message: Option<string>)

  /** The parts of an `HttpErrorResponse` that `tratarErros` looks at. */
  datatype HttpError = HttpError(status: nat, error: ErrorPayload)

  // ---- Decimal rendering of a status code, as in `Erro ${error.status}` ----

  function DigitChar(d: nat): char
    requires d < 10
  {
    "0123456789"[d]
  }

  predicate IsDigit(c: char) { '0' <= c <= '9' }

  function DigitValue(c: char): nat
    requires IsDigit(c)
  {
    c as int - '0' as int
  }

  /** The decimal digits of `n`, most significant first, without leading zeros. */
  function NatToString(n: nat): (s: string)
    ensures |s| > 0
    ensures forall i :: 0 <= i < |s| ==> IsDigit(s[i])
    ensures s[0] == '0' ==> n == 0
  {
    if n < 10 then [DigitChar(n)] else NatToString(n / 10) + [DigitChar(n % 10)]
  }

  /** The number a string of decimal digits denotes. */
  function DecimalValue(s: string): nat
    requires forall i :: 0 <= i < |s| ==> IsDigit(s[i])
  {
    if s == [] then 0 else 10 * DecimalValue(s[..|s| - 1]) + DigitValue(s[|s| - 1])
  }

  /** Reading back the rendered status gives the status: distinct statuses
      give distinct `Erro <status>` messages. */
  lemma {:induction false} NatToStringRoundTrip(n: nat)
    ensures DecimalValue(NatToString(n)) == n
  {
    var s := NatToString(n);
    if n >= 10 {
      NatToStringRoundTrip(n / 10);
      assert s[..|s| - 1] == NatToString(n / 10);
    }
  }

  // ---- tratarErros ----

  /** `error.error?.message || fallback`: the server's message unless it is
      missing or the empty string (which JavaScript treats as false). */
  function ServerMessageOr(payload: ErrorPayload, fallback: string): (r: string)
    requires payload.ServerPayload?
    ensures payload.message.Some? && payload.message.value != "" ==> r == payload.message.value
    ensures payload.message.None? || payload.message.value == "" ==> r == fallback
  {
    if payload.message.Some? && payload.message.value != "" then payload.message.value else fallback
  }

  /** The message `tratarErros` puts in the error it rethrows. */
  function ErrorMessage(e: HttpError): (msg: string)
    // a client-side error takes precedence over the status
    ensures e.error.ClientEvent? ==> msg == "Erro: " + e.error.eventMessage
    // 401, 404 and 500 ignore the body
    ensures e.error.ServerPayload? && e.status == 401 ==> msg == "Credenciais inválidas"
    ensures e.error.ServerPayload? && e.status == 404 ==> msg == "Recurso não encontrado"
    ensures e.error.ServerPayload? && e.status == 500 ==> msg == "Erro interno do servidor"
    // every other status prefers a non-empty server message
    ensures e.error.ServerPayload? && e.status !in {401, 404, 500}
              && e.error.message.Some? && e.error.message.value != "" ==>
              msg == e.error.message.value
    ensures e.error.ServerPayload? && e.status == 409
              && (e.error.message.None? || e.error.message.value == "") ==>
              msg == "Conflito de dados"
    ensures e.error.ServerPayload? && e.status !in {401, 404, 409, 500}
              && (e.error.message.None? || e.error.message.value == "") ==>
              msg == "Erro " + NatToString(e.status)
    ensures |msg| > 0
  {
    match e.error
    case ClientEvent(m) => "Erro: " + m
    case ServerPayload(_) =>
      if e.status == 401 then "Credenciais inválidas"
      else if e.status == 404 then "Recurso não encontrado"
      else if e.status == 409 then ServerMessageOr(e.error, "Conflito de dados")
      else if e.status == 500 then "Erro interno do servidor"
      else ServerMessageOr(e.error, "Erro " + NatToString(e.status))
  }

  /** Two failed requests without a server message and with statuses outside
      the switch get the same message only when their statuses are equal. */
  lemma FallbackMessagesDistinct(s1: nat, s2: nat)
    requires s1 !in {401, 404, 409, 500} && s2 !in {401, 404, 409, 500}
    ensures ErrorMessage(HttpError(s1, ServerPayload(None))) == ErrorMessage(HttpError(s2, ServerPayload(None)))
            <==> s1 == s2
  {
    if ErrorMessage(HttpError(s1, ServerPayload(None))) == ErrorMessage(HttpError(s2, ServerPayload(None))) {
      var m1, m2 := "Erro " + NatToString(s1), "Erro " + NatToString(s2);
      assert m1[5..] == NatToString(s1) && m2[5..] == NatToString(s2);
      NatToStringRoundTrip(s1);
      NatToStringRoundTrip(s2);
    }
  }

  /** Whether `tratarErros` logs the user out: a 401 from the server. */
  predicate EndsSession(e: HttpError) {
    e.error.ServerPayload? && e.status == 401
  }

  class ApiService {
    var usuarioLogado: Option<Usuario>
    var autenticado: bool

    /** The session invariant every operation keeps: a user is held exactly
        when the session is authenticated. */
    predicate Consistent()
      reads this
    {
      autenticado <==> usuarioLogado.Some?
    }

    /** `logado`, computed from the authenticated flag. */
    function Logado(): (r: bool)
      reads this
      ensures r <==> autenticado
    {
      autenticado
    }

    constructor ()
      ensures usuarioLogado == None && !autenticado && !Logado()
      ensures Consistent()
    {
      usuarioLogado := None;
      autenticado := false;
    }

    /** The `tap` on a successful `login` answer: keep `id`, `nome` and
        `email` of the returned user and mark the session authenticated. */
    method OnLoginResponse(response: AutenticacaoResponse)
      modifies this
      ensures response.usuario.Some? ==>
                var u := response.usuario.value;
                usuarioLogado == Some(Usuario(u.id, u.nome, u.email)) && autenticado && Logado()
      ensures response.usuario.None? ==>
                usuarioLogado == old(usuarioLogado) && autenticado == old(autenticado)
      ensures old(Consistent()) ==> Consistent()
    {
      if response.usuario.Some? {
        var u := response.usuario.value;
        var usuarioLimpo := Usuario(u.id, u.nome, u.email);
        usuarioLogado := Some(usuarioLimpo);
        autenticado := true;
      }
    }

    /** `logout` */
    method Logout()
      modifies this
      ensures usuarioLogado == None && !autenticado && !Logado()
      ensures Consistent()
    {
      usuarioLogado := None;
      autenticado := false;
    }

    /** `tratarErros`: the message of the rethrown error; a server 401 also
        logs out, and nothing else touches the session. */
    method TratarErros(error: HttpError) returns (mensagemErro: string)
      modifies this
      ensures mensagemErro == ErrorMessage(error)
      ensures EndsSession(error) ==> usuarioLogado == None && !autenticado && !Logado()
      ensures !EndsSession(error) ==>
                usuarioLogado == old(usuarioLogado) && autenticado == old(autenticado)
      ensures old(Consistent()) ==> Consistent()
    {
      mensagemErro := ErrorMessage(error);
      if EndsSession(error) {
        Logout();
      }
    }
  }
}
