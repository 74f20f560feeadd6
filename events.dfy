/** What the program does that can be observed from outside: console lines,
    the configuration read, quote requests, mails handed to the relay, sleeps. */
module Events {
  import opened Wrappers

  /** One message handed to SmtpClient.Send. */
  datatype Mail = Mail(from: string, to: seq<string>, subject: string, body: string)

  /** Why ObterCotacao gave up (each is an exception caught at Program.cs:101). */
  datatype FetchFailure =
    | RequestError   // GetStringAsync or JsonNode.Parse threw (network, status, malformed JSON)
    | NullDocument   // JsonNode.Parse returned null
    | NotAnObject    // an indexer was applied to a node that is not an object
    | BlankPrice     // the price text is null, empty or white space
    | Unparsable     // decimal.TryParse rejected the price text

  /** A line written with Console.WriteLine; timestamps are left out. */
  datatype Line =
    | Usage
    | InvalidSell
    | InvalidBuy
    | Monitoring(ativo: string, sell: real, buy: real)
    | Observation(ativo: string, price: real)
    | FetchError(cause: FetchFailure)
    | MissingPass
    | MissingUser
    | MissingDestination
    | SendError
    | AlertSent(ativo: string, reason: string, price: real)

  datatype Event =
    | Log(line: Line)
    | LoadConfig        // AppConfig.Load is called
    | ConfigFailed      // AppConfig.Load threw; the exception ends the process
    | Request(ativo: string)  // one HTTP request for the quote of ativo
    | Send(mail: Mail)  // SmtpClient.Send returned normally
    | Sleep(ms: nat)

  /** The fixed text of the lines that have one; None for formatted lines and for
      errors whose text is the message of a library exception. */
  function Wording(line: Line): Option<string> {
    match line
    case Usage => Some("Uso: stock-quote-alert.exe ATIVO PRECO_VENDA PRECO_COMPRA")
    case InvalidSell => Some("Preço de venda inválido.")
    case InvalidBuy => Some("Preço de compra inválido.")
    case FetchError(NullDocument) =>
      Some("Erro ao consultar API: Resposta da API não pôde ser convertida para JSON.")
    case FetchError(BlankPrice) =>
      Some("Erro ao consultar API: Não foi possível obter o preço: valor nulo ou vazio.")
    case FetchError(Unparsable) => Some("Erro ao consultar API: Não foi possível obter o preço.")
    case MissingPass =>
      Some("Senha SMTP não configurada. Preencha no appsettings.json antes de enviar emails.")
    case MissingUser =>
      Some("Usuário SMTP não configurado. Preencha no appsettings.json antes de enviar emails.")
    case MissingDestination =>
      Some("Email de destino não configurado. Preencha no appsettings.json antes de enviar emails.")
    case _ => None
  }

  /** The mails sent, in order. */
  function Sends(es: seq<Event>): seq<Mail> {
    if es == [] then []
    else Sends(es[..|es| - 1]) + (if es[|es| - 1].Send? then [es[|es| - 1].mail] else [])
  }

  /** The prices of the observation lines, in order. */
  function Observed(es: seq<Event>): seq<real> {
    if es == [] then []
    else
      var e := es[|es| - 1];
      Observed(es[..|es| - 1]) + (if e.Log? && e.line.Observation? then [e.line.price] else [])
  }

  lemma AppendAssoc<T>(a: seq<T>, b: seq<T>, c: seq<T>)
    ensures (a + b) + c == a + (b + c)
  {
  }

  lemma {:induction false} SendsAppend(a: seq<Event>, b: seq<Event>)
    ensures Sends(a + b) == Sends(a) + Sends(b)
  {
    if b == [] {
      assert a + b == a;
    } else {
      var b' := b[..|b| - 1];
      assert (a + b)[..|a + b| - 1] == a + b';
      SendsAppend(a, b');
    }
  }

  lemma {:induction false} ObservedAppend(a: seq<Event>, b: seq<Event>)
    ensures Observed(a + b) == Observed(a) + Observed(b)
  {
    if b == [] {
      assert a + b == a;
    } else {
      var b' := b[..|b| - 1];
      assert (a + b)[..|a + b| - 1] == a + b';
      ObservedAppend(a, b');
    }
  }

  /** A trace without mails sends none. */
  lemma {:induction false} SendsNone(es: seq<Event>)
    requires forall e <- es :: !e.Send?
    ensures Sends(es) == []
  {
    if es != [] {
      SendsNone(es[..|es| - 1]);
    }
  }

  /** A trace without observation lines observes nothing. */
  lemma {:induction false} ObservedNone(es: seq<Event>)
    requires forall e <- es :: !(e.Log? && e.line.Observation?)
    ensures Observed(es) == []
  {
    if es != [] {
      ObservedNone(es[..|es| - 1]);
    }
  }
}
